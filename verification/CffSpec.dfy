/** The packed format of BoomTracker: what a stream of codes means (src/cff.cpp). */
module CffSpec {
  import opened Wrappers
  import opened Bits

  /** The input not yet used: the bits of the last byte fetched that no code has used, and the
      bytes not fetched. */
  datatype Reader = Reader(pending: seq<bool>, rest: seq<byte>)

  function Stream(r: Reader): seq<bool> {
    r.pending + BytesBits(r.rest)
  }

  function Fill(r: Reader, n: nat): (f: Reader)
    ensures Stream(f) == Stream(r) && |f.rest| <= |r.rest|
    ensures |f.pending| >= n || f.rest == []
    ensures |r.pending| < 8 + n ==> |f.pending| < 8 + n
    decreases |r.rest|
  {
    if |r.pending| >= n || r.rest == [] then r
    else
      var bits := ToBits(r.rest[0], 8);
      assert Stream(r) == r.pending + bits + BytesBits(r.rest[1..]);
      Fill(Reader(r.pending + bits, r.rest[1..]), n)
  }

  /** The next `n` bits as a number, or None where the decoder would read past its input. */
  function GetCode(r: Reader, n: nat): (c: Option<(nat, Reader)>)
    ensures c.Some? <==> n <= |Stream(r)|
    ensures c.Some? ==> c.value.0 == Val(Stream(r)[..n]) && Stream(c.value.1) == Stream(r)[n..]
    ensures c.Some? && |r.pending| < 8 ==> |c.value.1.pending| < 8
  {
    var f := Fill(r, n);
    if |f.pending| < n then None
    else
      assert Stream(f)[..n] == f.pending[..n];
      assert Stream(f)[n..] == f.pending[n..] + BytesBits(f.rest);
      Some((Val(f.pending[..n]), Reader(f.pending[n..], f.rest)))
  }

  const FIRST_ENTRY: nat := 0x104
  const OUTPUT_MAX: nat := 0x10000
  const HEAP_MAX: nat := 0x10000

  /** Between codes: `width` is the code length, `cur` the string of the last code, `out` the
      output of all blocks so far. */
  datatype State = State(r: Reader, width: nat, dict: seq<seq<byte>>, cur: seq<byte>, out: seq<byte>)

  datatype Outcome = Done(out: seq<byte>) | Failed | Overrun

  datatype Step = Go(s: State) | Stop(o: Outcome)

  /** The string of a code; nothing at all for a code that has none yet. */
  function Translate(dict: seq<seq<byte>>, code: nat): seq<byte> {
    if code >= FIRST_ENTRY + |dict| then []
    else if code >= FIRST_ENTRY then dict[code - FIRST_ENTRY]
    else [(code + 252) % 256]
  }

  function HeapSize(dict: seq<seq<byte>>): nat {
    if dict == [] then 0 else HeapSize(dict[..|dict| - 1]) + |dict[|dict| - 1]| + 1
  }

  /** Entries take at least two bytes each of the heap. */
  lemma {:induction false} EntriesFit(dict: seq<seq<byte>>)
    requires forall k :: 0 <= k < |dict| ==> 1 <= |dict[k]|
    ensures 2 * |dict| <= HeapSize(dict)
  {
    if dict != [] { EntriesFit(dict[..|dict| - 1]); }
  }

  /** A string joins the dictionary unless it is too long or the heap is full. */
  function Expand(dict: seq<seq<byte>>, s: seq<byte>): seq<seq<byte>> {
    if |s| >= 0xF0 || HeapSize(dict) + |s| + 1 > HEAP_MAX then dict else dict + [s]
  }

  function Put(s: State, str: seq<byte>): (x: Step)
    ensures x.Go? ==> x.s.width == s.width
  {
    if |s.out| + |str| > OUTPUT_MAX then Stop(Failed) else Go(s.(out := s.out + str))
  }

  function StartString(s: State): (x: Step)
    ensures x.Go? ==> x.s.width == s.width
  {
    match GetCode(s.r, s.width)
    case None => Stop(Overrun)
    case Some((code, r)) =>
      var str := Translate(s.dict, code);
      Put(s.(r := r, cur := str), str)
  }

  /** A new block starts at the next whole byte, with an empty dictionary. */
  function StartBlock(s: State): (x: Step)
    ensures x.Go? ==> x.s.width == 9
  {
    StartString(s.(r := Reader([], s.r.rest), width := 9, dict := []))
  }

  function Repeat(out: seq<byte>, n: nat, count: nat): (r: seq<byte>)
    requires n <= |out|
    ensures |r| == |out| + n * count
    decreases count
  {
    if count == 0 then out
    else
      assert n * count == n + n * (count - 1);
      Repeat(out + out[|out| - n..], n, count - 1)
  }

  /** The fields of a repetition: its length, its count, and the input behind them. */
  function RunFields(r: Reader): Option<(nat, nat, Reader)> {
    match GetCode(r, 2)
    case None => None
    case Some((n0, r0)) =>
      match GetCode(r0, 2)
      case None => None
      case Some((sel, r1)) =>
        match GetCode(r1, 4 * Pow2(sel))
        case None => None
        case Some((count, r2)) => Some((n0 + 1, count, r2))
  }

  function RunLength(s: State): Step {
    match RunFields(s.r)
    case None => Stop(Overrun)
    case Some((n, count, r)) =>
      if n > |s.out| || count > 0x10000 || |s.out| + count * n > OUTPUT_MAX then Stop(Failed)
      else StartString(s.(r := r, out := Repeat(s.out, n, count)))
  }

  function Phrase(s: State, code: nat): Step {
    var last := if code >= FIRST_ENTRY + |s.dict| then (if s.cur == [] then 0 else s.cur[0])
                else Head(Translate(s.dict, code));
    var dict := Expand(s.dict, s.cur + [last]);
    var str := Translate(dict, code);
    Put(s.(dict := dict, cur := str), str)
  }

  function Head(s: seq<byte>): byte {
    if s == [] then 0 else s[0]
  }

  function Decode(s: State): Step {
    match GetCode(s.r, s.width)
    case None => Stop(Overrun)
    case Some((code, r)) =>
      var s' := s.(r := r);
      if code == 0 then Stop(Done(s.out))
      else if code == 1 then StartBlock(s')
      else if code == 2 then (if s.width + 1 > 16 then Stop(Failed) else Go(s'.(width := s.width + 1)))
      else if code == 3 then RunLength(s')
      else Phrase(s', code)
  }

  lemma RunFieldsConsume(r: Reader)
    ensures RunFields(r).Some? ==> |Stream(RunFields(r).value.2)| < |Stream(r)|
  {
    hide Stream;
  }

  lemma DecodeConsumes(s: State)
    requires s.width > 0
    ensures Decode(s).Go? ==> |Stream(Decode(s).s.r)| < |Stream(s.r)| && Decode(s).s.width > 0
  {
    hide Stream, GetCode, RunFields, Expand, Translate, Repeat;
    GetCodeConsumes(s.r, s.width);
    if GetCode(s.r, s.width).Some? {
      var r := GetCode(s.r, s.width).value.1;
      RunFieldsConsume(r);
      if RunFields(r).Some? { GetCodeConsumes(RunFields(r).value.2, s.width); }
      GetCodeConsumes(Reader([], r.rest), 9);
      Realigned(r);
    }
  }

  lemma Realigned(r: Reader)
    ensures |Stream(Reader([], r.rest))| <= |Stream(r)|
  {
  }

  lemma GetCodeConsumes(r: Reader, n: nat)
    ensures GetCode(r, n).Some? && n > 0 ==> |Stream(GetCode(r, n).value.1)| < |Stream(r)|
  {
  }

  /** One step of a run. */
  lemma RunStep(s: State)
    requires s.width > 0
    ensures Decode(s).Go? ==> Decode(s).s.width > 0 && |Stream(Decode(s).s.r)| < |Stream(s.r)|
    ensures Run(s) == Finish(Decode(s))
  {
    hide Decode, Stream;
    DecodeConsumes(s);
  }

  function Run(s: State): Outcome
    requires s.width > 0
    decreases |Stream(s.r)|
  {
    DecodeConsumes(s);
    match Decode(s)
    case Stop(o) => o
    case Go(s') => Run(s')
  }

  const SIGNATURE: seq<byte> :=
    [0x59, 0x73, 0x43, 0x6F, 0x6D, 0x70, 7, 0x43, 0x55, 0x44, 0x31, 0x39, 0x39, 0x37, 0x1A, 4]

  function Finish(x: Step): Outcome
    requires x.Go? ==> x.s.width > 0
  {
    match x
    case Stop(o) => o
    case Go(s) => Run(s)
  }

  function Unpacked(ibuf: seq<byte>): Outcome {
    if |ibuf| < 16 then Overrun
    else if ibuf[..16] != SIGNATURE then Failed
    else Finish(StartBlock(State(Reader([], ibuf[16..]), 9, [], [], [])))
  }
}
