/** A whole encoder for the packed format: it cuts its text greedily, each phrase as long as the decoder's
    dictionary allows.  It shows that every text can be packed, and how well runs pack (src/cff.cpp). */
module CffGreedy {
  import opened Bits
  import opened CffSpec
  import opened CffRoundTrip

  /** The longest phrase that begins the text and has a code. */
  function Fit(dict: seq<seq<byte>>, text: seq<byte>, n: nat): (k: nat)
    requires 1 <= n <= |text|
    ensures 1 <= k <= n && Known(dict, text[..k])
    ensures forall m :: k < m <= n ==> !Known(dict, text[..m])
  {
    if Known(dict, text[..n]) then n else Fit(dict, text, n - 1)
  }

  function Greedy(dict: seq<seq<byte>>, cur: seq<byte>, text: seq<byte>): (items: seq<Item>)
    ensures |items| <= |text|
    decreases |text|
  {
    if text == [] then []
    else
      var dict' := DictFor(dict, cur, Word([text[0]]));
      var k := Fit(dict', text, |text|);
      [Word(text[..k])] + Greedy(dict', text[..k], text[k..])
  }

  function GreedyEncoded(text: seq<byte>): seq<byte>
    requires text != []
  {
    Encoded([Block(text[0], Greedy([], [text[0]], text[1..]))])
  }

  lemma {:induction false} GreedyLegal(dict: seq<seq<byte>>, cur: seq<byte>, out: seq<byte>, text: seq<byte>)
    requires |out| + |text| <= OUTPUT_MAX
    ensures Legal(dict, cur, out, Greedy(dict, cur, text)) && Text(out, Greedy(dict, cur, text)) == out + text
    decreases |text|
  {
    hide Known, Expand;
    if text == [] {
      assert out + text == out;
    } else {
      var dict' := DictFor(dict, cur, Word([text[0]]));
      var k := Fit(dict', text, |text|);
      GreedyLegal(dict', text[..k], out + text[..k], text[k..]);
      assert out + text == out + text[..k] + text[k..];
      assert Greedy(dict, cur, text)[1..] == Greedy(dict', text[..k], text[k..]);
    }
  }

  /** Every text that fits the output buffer is packed, and unpacks to itself. */
  lemma EveryTextPacks(text: seq<byte>)
    requires 0 < |text| <= OUTPUT_MAX
    ensures Unpacked(GreedyEncoded(text)) == Done(text)
  {
    hide Unpacked, Encoded, Legal, Text, LegalBlocks, Texts;
    var b := Block(text[0], Greedy([], [text[0]], text[1..]));
    GreedyLegal([], [text[0]], [] + [text[0]], text[1..]);
    assert text == [] + [text[0]] + text[1..];
    OneBlockText(b);
    UnpackInvertsEncode([b]);
  }

  // Runs of one byte

  function Same(x: byte, n: nat): (s: seq<byte>)
    ensures |s| == n && forall i :: 0 <= i < n ==> s[i] == x
  {
    seq(n, _ => x)
  }

  /** 1 + 2 + ... + n */
  function Triangle(n: nat): nat {
    if n == 0 then 0 else Triangle(n - 1) + n
  }

  /** The dictionary after the phrases of 1, 2, ..., j bytes. */
  function RunDict(x: byte, j: nat): (d: seq<seq<byte>>)
    requires j > 0
    ensures |d| == j - 1 && forall i :: 0 <= i < |d| ==> d[i] == Same(x, i + 2)
  {
    seq(j - 1, i requires 0 <= i < j - 1 => Same(x, i + 2))
  }

  lemma {:induction false} RunHeap(x: byte, j: nat)
    requires 0 < j <= 0xEF
    ensures HeapSize(RunDict(x, j)) <= 0xF0 * (j - 1)
  {
    if j > 1 {
      RunHeap(x, j - 1);
      assert RunDict(x, j)[..j - 2] == RunDict(x, j - 1);
    }
  }

  lemma RunDictGrows(x: byte, j: nat)
    requires 0 < j < 0xEF
    ensures Expand(RunDict(x, j), Same(x, j) + [x]) == RunDict(x, j + 1)
  {
    RunHeap(x, j);
    assert Same(x, j) + [x] == Same(x, j + 1);
    assert RunDict(x, j) + [Same(x, j + 1)] == RunDict(x, j + 1);
  }

  lemma LongestInRun(x: byte, j: nat, m: nat)
    requires 0 < j < m
    ensures Fit(RunDict(x, j + 1), Same(x, m), m) == j + 1
  {
    var dict, text := RunDict(x, j + 1), Same(x, m);
    assert dict[j - 1] == Same(x, j + 1) == text[..j + 1];
    assert Known(dict, text[..j + 1]);
  }

  /** The next phrase of a run is one byte longer than the last. */
  lemma NextPhrase(x: byte, j: nat, m: nat)
    requires 0 < j < 0xEF && j < m
    ensures Greedy(RunDict(x, j), Same(x, j), Same(x, m))
            == [Word(Same(x, j + 1))] + Greedy(RunDict(x, j + 1), Same(x, j + 1), Same(x, m - j - 1))
  {
    hide Expand, Known, Fit;
    RunDictGrows(x, j);
    LongestInRun(x, j, m);
    assert Same(x, m)[..j + 1] == Same(x, j + 1);
    assert Same(x, m)[j + 1..] == Same(x, m - j - 1);
  }

  lemma RunCode(x: byte, j: nat)
    requires 0 < j < 0xEF
    ensures Known(RunDict(x, j + 1), Same(x, j + 1)) && CodeOf(RunDict(x, j + 1), Same(x, j + 1)) < Pow2(9)
    ensures Pow2(9) <= Pow2(16)
  {
    assert RunDict(x, j + 1)[j - 1] == Same(x, j + 1);
    PowersOfTwo(9);
    PowersOfTwo(16);
  }

  lemma PhraseBits(x: byte, j: nat, items: seq<Item>)
    requires 0 < j < 0xEF
    ensures |ItemsBits(9, RunDict(x, j), Same(x, j), [Word(Same(x, j + 1))] + items, 0)|
            == 9 + |ItemsBits(9, RunDict(x, j + 1), Same(x, j + 1), items, 0)|
  {
    hide Expand, Known, CodeOf, Pow2, ToBits;
    RunDictGrows(x, j);
    RunCode(x, j);
    assert ([Word(Same(x, j + 1))] + items)[1..] == items;
  }

  /** What is left of a run of 1 + 2 + ... + n bytes behind a phrase of `j`. */
  function Left(j: nat, n: nat): nat
    requires j <= n
    decreases n - j
  {
    if j == n then 0 else j + 1 + Left(j + 1, n)
  }

  lemma {:induction false} LeftIs(j: nat, n: nat)
    requires j <= n
    ensures Triangle(j) + Left(j, n) == Triangle(n)
    decreases n - j
  {
    if j < n { LeftIs(j + 1, n); }
  }

  lemma NothingLeft(x: byte, j: nat)
    requires 0 < j
    ensures Greedy(RunDict(x, j), Same(x, j), Same(x, 0)) == []
    ensures |ItemsBits(9, RunDict(x, j), Same(x, j), [], 0)| == 9
  {
    hide ToBits;
  }

  /** After a phrase of `j` bytes come phrases of j + 1, j + 2, ..., n bytes, each in nine bits. */
  lemma {:induction false} RunItems(x: byte, j: nat, n: nat)
    requires 0 < j <= n <= 0xEF
    ensures var items := Greedy(RunDict(x, j), Same(x, j), Same(x, Left(j, n)));
            |items| == n - j && |ItemsBits(9, RunDict(x, j), Same(x, j), items, 0)| == 9 * (n - j + 1)
    decreases n - j
  {
    hide Greedy, ItemsBits;
    if j == n {
      NothingLeft(x, j);
    } else {
      NextPhrase(x, j, Left(j, n));
      PhraseBits(x, j, Greedy(RunDict(x, j + 1), Same(x, j + 1), Same(x, Left(j + 1, n))));
      RunItems(x, j + 1, n);
    }
  }

  /** A run of 1 + 2 + ... + n equal bytes takes n codes of nine bits, and one for the end. */
  lemma RunsPack(x: byte, n: nat)
    requires 0 < n <= 0xEF
    ensures Triangle(n) > 0
    ensures |GreedyEncoded(Same(x, Triangle(n)))| == 16 + (9 * (n + 1) + 7) / 8
  {
    hide Greedy, ItemsBits, ToBits;
    RunItems(x, 1, n);
    var text := Same(x, Triangle(n));
    LeftIs(1, n);
    assert Triangle(1) == 1;
    assert text[1..] == Same(x, Left(1, n)) && RunDict(x, 1) == [] && Same(x, 1) == [x];
  }

  /** The smallest file with a dictionary string: a byte has the code four above it, the first string of a
      block, entered with the second code, has 0x104, and 0 ends the file; nine bits each, lowest first. */
  lemma ThreeAlike(x: byte)
    ensures GreedyEncoded([x, x, x]) == SIGNATURE + Pack(Padded(ToBits(x + 4, 9) + (ToBits(0x104, 9) + ToBits(0, 9))))
    ensures Unpacked(GreedyEncoded([x, x, x])) == Done([x, x, x])
  {
    hide Unpacked, ToBits, Padded, Pack, Greedy, ItemsBits, BlocksBytes;
    EveryTextPacks([x, x, x]);
    assert [x, x, x][1..] == [x, x];
    TwoAlike(x);
    TwoAlikeBits(x);
    OneBlock(Block(x, [Word([x, x])]));
  }

  lemma OneBlock(b: Block)
    ensures BlocksBytes([b]) == BlockBytes(b, 0)
  {
  }

  lemma TwoAlike(x: byte)
    ensures Greedy([], [x], [x, x]) == [Word([x, x])]
  {
    assert [x, x] == Same(x, 2) && Same(x, 1) == [x] && RunDict(x, 1) == [] && Same(x, 0) == [];
    NextPhrase(x, 1, 2);
  }

  lemma TwoAlikeBits(x: byte)
    ensures ItemsBits(9, [], [x], [Word([x, x])], 0) == ToBits(0x104, 9) + ToBits(0, 9)
  {
    hide ToBits;
    var dict := [[x, x]];
    assert [x] + [x] == [x, x] && [] + [[x, x]] == dict;
    assert DictFor([], [x], Word([x, x])) == dict;
    assert CodeOf(dict, [x, x]) == 0x104;
    PowersOfTwo(9);
    PowersOfTwo(16);
    assert [Word([x, x])][1..] == [];
    hide Pow2;
  }

  /** The codes that are no phrases: 3 stands before a repetition, whose length less one takes two bits, then two
      that tell the width of the count, 4, 8, 16 or 32; 2 widens the codes that follow by a bit; 1 ends a
      block and 0 the last one, each filled up to whole bytes. */
  lemma ControlCodes(width: nat, code: nat, n: nat, count: nat, w: seq<byte>, x: byte, y: byte)
    requires 1 <= n <= 4 && count <= 0x10000
    ensures ItemBits(width, code, Again(n, count, w)) ==
              ToBits(3, width) + ToBits(n - 1, 2)
              + (if count < 16 then ToBits(0, 2) + ToBits(count, 4)
                 else if count < 256 then ToBits(1, 2) + ToBits(count, 8)
                 else if count < 65536 then ToBits(2, 2) + ToBits(count, 16)
                 else ToBits(3, 2) + ToBits(count, 32))
              + ToBits(code, width)
    ensures WidenBits(width, width) == [] && WidenBits(width, width + 1) == ToBits(2, width)
    ensures BlocksBytes([Block(x, []), Block(y, [])])
            == Pack(Padded(ToBits(x + 4, 9) + ToBits(1, 9))) + Pack(Padded(ToBits(y + 4, 9) + ToBits(0, 9)))
  {
    hide ToBits, Pack, Padded;
    assert Pow2(0) == 1 && Pow2(1) == 2 && Pow2(2) == 4 && Pow2(3) == 8;
    hide Pow2;
    assert WidenBits(width + 1, width + 1) == [];
    var blocks := [Block(x, []), Block(y, [])];
    assert blocks[1..] == [Block(y, [])];
    assert BlocksBytes(blocks) == BlockBytes(Block(x, []), 1) + BlocksBytes(blocks[1..]);
    OneBlock(Block(y, []));
  }
}
