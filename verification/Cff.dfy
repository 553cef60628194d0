/** The unpacker of BoomTracker files: cff_unpacker of src/cff.cpp, buffers and all. */
module Cff {
  import opened Wrappers
  import opened Bits
  import opened CffSpec

  /** A counted string at `at`. */
  ghost predicate Holds(a: seq<byte>, at: nat, s: seq<byte>) {
    at + 1 + |s| <= |a| && a[at] == |s| && a[at + 1..at + 1 + |s|] == s
  }

  /** The entries of a dictionary, 1 to 0xEF bytes each, lie in the heap at their offsets. */
  ghost predicate EntriesAt(heap: seq<byte>, offsets: seq<nat>, dict: seq<seq<byte>>) {
    |offsets| == |dict| && forall k :: 0 <= k < |dict| ==> 1 <= |dict[k]| <= 0xEF && Holds(heap, offsets[k], dict[k])
  }

  /** A counted string put behind the used part of the heap is one more entry. */
  lemma EntryAdded(heap: seq<byte>, offsets: seq<nat>, dict: seq<seq<byte>>, s: seq<byte>)
    requires EntriesAt(heap, offsets, dict) && 1 <= |s| <= 0xEF
    ensures EntriesAt(heap + [|s|] + s, offsets + [|heap|], dict + [s])
  {
    var h := heap + [|s|] + s;
    assert h[|heap| + 1..|heap| + 1 + |s|] == s;
    forall k | 0 <= k < |dict|
      ensures Holds(h, offsets[k], dict[k])
    {
      assert h[offsets[k] + 1..offsets[k] + 1 + |dict[k]|] == heap[offsets[k] + 1..offsets[k] + 1 + |dict[k]|];
    }
  }

  lemma HeapPush(dict: seq<seq<byte>>, s: seq<byte>)
    ensures HeapSize(dict + [s]) == HeapSize(dict) + |s| + 1
  {
    assert (dict + [s])[..|dict|] == dict;
  }

  /** How a step of the unpacker ends: with more to do, at the end of the data, with an error, or
      where the original would read past its input. */
  datatype Flow = Continue | End | Fail | PastInput

  class Unpacker {
    const ibuf: seq<byte>
    const output: array<byte>      // 0x10000 bytes, supplied by the caller
    const heap: array<byte>
    const dictionary: array<nat>   // where in the heap each entry begins
    const theString: array<byte>   // length byte, then the bytes

    var input: nat                 // the next byte of ibuf
    var outputLength: nat
    var codeLength: nat
    var bitsLeft: nat
    var bitsBuffer: nat
    var heapLength: nat
    var dictionaryLength: nat

    ghost var pending: seq<bool>
    ghost var dict: seq<seq<byte>>
    ghost var cur: seq<byte>

    constructor (ibuf: seq<byte>, output: array<byte>)
      requires output.Length == OUTPUT_MAX
      ensures this.ibuf == ibuf && this.output == output && fresh(heap) && fresh(dictionary) && fresh(theString)
      ensures Buffers() && outputLength == 0
    {
      this.ibuf, this.output := ibuf, output;
      heap := new byte[0x10000];
      dictionary := new nat[0x8000];
      theString := new byte[256];
      input, outputLength, codeLength := 0, 0, 9;
      bitsLeft, bitsBuffer, heapLength, dictionaryLength := 0, 0, 0, 0;
      pending, dict, cur := [], [], [];
    }

    ghost predicate Buffers() {
      && output.Length == OUTPUT_MAX && heap.Length == HEAP_MAX && dictionary.Length == 0x8000 && theString.Length == 256
      && output != heap && output != theString && heap != theString
    }

    /** The bit buffer holds the pending bits. */
    ghost predicate BitsOk()
      reads this
    {
      input <= |ibuf| && bitsLeft == |pending| && bitsBuffer == Val(pending)
    }

    ghost function Source(): Reader
      reads this
      requires input <= |ibuf|
    {
      Reader(pending, ibuf[input..])
    }

    ghost predicate DictionaryOk()
      reads this, heap, dictionary
    {
      && Buffers()
      && |dict| == dictionaryLength <= 0x8000
      && HeapSize(dict) == heapLength <= HEAP_MAX
      && EntriesAt(heap[..heapLength], dictionary[..dictionaryLength], dict)
    }

    /** Loads the next byte behind the bits at hand. */
    method FetchByte()
      requires BitsOk() && input < |ibuf|
      modifies this`input, this`bitsLeft, this`bitsBuffer, this`pending
      ensures BitsOk() && input == old(input) + 1
      ensures pending == old(pending) + ToBits(ibuf[old(input)], 8)
    {
      hide Val, ToBits, Pow2;
      AppendByte(pending, ibuf[input]);
      pending := pending + ToBits(ibuf[input], 8);
      bitsBuffer := bitsBuffer + ibuf[input] * Pow2(bitsLeft);
      input := input + 1;
      bitsLeft := bitsLeft + 8;
    }

    lemma DictionaryFits()
      requires DictionaryOk()
      ensures 2 * |dict| <= heapLength
    {
      EntriesFit(dict);
    }

    /** Takes `n` bits off the input; fails where the original reads past the end of its buffer.
        The bits left over are fewer than 8, so they fit the original's variables. */
    method GetCode(n: nat) returns (ok: bool, code: nat)
      requires BitsOk() && bitsLeft < 8
      modifies this`input, this`bitsLeft, this`bitsBuffer, this`pending
      ensures BitsOk() && (ok ==> bitsLeft < 8 && bitsBuffer < Pow2(8))
      ensures ok <==> CffSpec.GetCode(old(Source()), n) != None
      ensures ok ==> CffSpec.GetCode(old(Source()), n) == Some((code, Source()))
    {
      hide Val, ToBits;
      ghost var r := Source();
      while bitsLeft < n
        invariant BitsOk() && Fill(Source(), n) == Fill(r, n)
        decreases |ibuf| - input
      {
        if input == |ibuf| {
          return false, 0;
        }
        ghost var before := Source();
        FetchByte();
        assert before.rest[1..] == ibuf[input..] && before.rest[0] == ibuf[input - 1];
        assert Fill(before, n) == Fill(Source(), n);
      }
      assert Source() == Fill(r, n);
      ValSplit(pending, n);
      code := bitsBuffer % Pow2(n);
      bitsBuffer := bitsBuffer / Pow2(n);
      bitsLeft := bitsLeft - n;
      pending := pending[n..];
      ok := true;
      assert CffSpec.GetCode(r, n) == Some((code, Source()));
      ValBound(pending);
      Pow2Monotone(bitsLeft, 8);
    }

    /** Writes the counted string of `code` to `str`. */
    method TranslateCode(code: nat, str: array<byte>)
      requires DictionaryOk() && str.Length == 256 && str != heap
      modifies str
      ensures Holds(str[..], 0, Translate(dict, code))
      ensures Translate(dict, code) == [] ==> str[1] == 0
      ensures |Translate(dict, code)| <= 0xEF
    {
      if code >= FIRST_ENTRY + dictionaryLength {
        str[0] := 0;
        str[1] := 0;
      } else if code >= FIRST_ENTRY {
        var at := dictionary[code - FIRST_ENTRY];
        ghost var s := dict[code - FIRST_ENTRY];
        assert Holds(heap[..heapLength], dictionary[..dictionaryLength][code - FIRST_ENTRY], s);
        var size := heap[at] + 1;
        forall i | 0 <= i < size {
          str[i] := heap[at + i];
        }
        assert heap[..heapLength][at + 1..at + 1 + |s|] == s;
        assert str[1..1 + |s|] == s;
      } else {
        str[0] := 1;
        str[1] := (code + 252) % 256;
      }
    }

    /** Appends `length` bytes of a buffer to the output, if they fit. */
    method PutString(str: array<byte>, from: nat, length: nat) returns (ok: bool)
      requires Buffers() && outputLength <= OUTPUT_MAX && from + length <= str.Length
      requires str == output ==> from + length <= outputLength
      modifies this`outputLength, output
      ensures ok <==> old(outputLength) + length <= OUTPUT_MAX
      ensures ok ==> outputLength == old(outputLength) + length
                     && output[..outputLength] == old(output[..outputLength]) + old(str[from..from + length])
      ensures !ok ==> outputLength == old(outputLength)
    {
      if outputLength + length > OUTPUT_MAX {
        return false;
      }
      forall i | 0 <= i < length {
        output[outputLength + i] := str[from + i];
      }
      outputLength := outputLength + length;
      ok := true;
    }

    /** memcpy to the free part of the heap. */
    method CopyToHeap(size: nat)
      requires Buffers() && size <= theString.Length && heapLength + size <= heap.Length
      modifies heap
      ensures heap[..heapLength + size] == old(heap[..heapLength]) + theString[..size]
    {
      forall i | 0 <= i < size {
        heap[heapLength + i] := theString[i];
      }
    }

    /** Adds the counted string in theString to the dictionary, unless it is too long or the heap
        is full. */
    method ExpandDictionary(ghost s: seq<byte>)
      requires DictionaryOk() && Holds(theString[..], 0, s) && 1 <= |s| <= 0xF0
      modifies this`heapLength, this`dictionaryLength, this`dict, heap, dictionary
      ensures DictionaryOk() && dict == Expand(old(dict), s)
    {
      hide HeapSize, EntriesAt;
      if theString[0] >= 0xF0 || heapLength + theString[0] + 1 > HEAP_MAX {
        return;
      }
      var size := theString[0] + 1;
      DictionaryFits();
      EntryAdded(heap[..heapLength], dictionary[..dictionaryLength], dict, s);
      HeapPush(dict, s);
      ghost var h, d, n := heap[..heapLength], dictionary[..dictionaryLength], heapLength;
      assert theString[..size] == [|s|] + s;
      CopyToHeap(size);
      assert heap[..heapLength + size] == h + [|s|] + s;
      dictionary[dictionaryLength] := heapLength;
      heapLength := heapLength + size;
      dictionaryLength := dictionaryLength + 1;
      assert dictionary[..dictionaryLength] == d + [n];
      dict := dict + [s];
    }

    /** Everything but theString is in order. */
    ghost predicate Prepared()
      reads this, heap, dictionary
    {
      BitsOk() && bitsLeft < 8 && DictionaryOk() && outputLength <= OUTPUT_MAX
    }

    ghost predicate Valid()
      reads this, heap, dictionary, theString
    {
      Prepared() && |cur| <= 0xEF && Holds(theString[..], 0, cur) && (cur == [] ==> theString[1] == 0)
    }

    ghost function Now(): State
      reads this, output
      requires Buffers() && input <= |ibuf| && outputLength <= OUTPUT_MAX
    {
      State(Source(), codeLength, dict, cur, output[..outputLength])
    }

    /** The step that was meant to happen is the one that did. */
    ghost predicate Took(x: Step, f: Flow)
      reads this, heap, dictionary, theString, output
    {
      match f
      case Continue => Valid() && x == Go(Now())
      case End => Prepared() && x == Stop(Done(output[..outputLength]))
      case Fail => x == Stop(Failed)
      case PastInput => x == Stop(Overrun)
    }

    /** Outputs theString. */
    method PutTheString() returns (f: Flow)
      requires Valid()
      modifies this`outputLength, output
      ensures Took(Put(old(Now()), cur), f) && f != End
    {
      var ok := PutString(theString, 1, theString[0]);
      f := if ok then Continue else Fail;
    }

    method StartString() returns (f: Flow)
      requires Prepared()
      modifies this, theString, output
      ensures Took(CffSpec.StartString(old(Now())), f) && f != End
    {
      hide HeapSize, EntriesAt, CffSpec.GetCode;
      var ok, code := GetCode(codeLength);
      if !ok {
        return PastInput;
      }
      TranslateCode(code, theString);
      cur := Translate(dict, code);
      f := PutTheString();
    }

    method StartBlock() returns (f: Flow)
      requires Prepared()
      modifies this, theString, output
      ensures Took(CffSpec.StartBlock(old(Now())), f) && f != End
    {
      hide CffSpec.StartString;
      codeLength := 9;
      bitsBuffer, bitsLeft, pending := 0, 0, [];
      heapLength, dictionaryLength, dict := 0, 0, [];
      f := StartString();
    }

    method LastAgain(n: nat)
      requires Buffers() && 1 <= n <= outputLength && outputLength + n <= OUTPUT_MAX
      modifies this`outputLength, output
      ensures outputLength == old(outputLength) + n
      ensures output[..outputLength] == old(output[..outputLength]) + old(output[..outputLength])[old(outputLength) - n..]
    {
      var _ := PutString(output, outputLength - n, n);
      assert old(output[outputLength - n..outputLength]) == old(output[..outputLength])[old(outputLength) - n..];
    }

    /** The last `n` bytes of the output, `count` times more. */
    method RepeatOutput(n: nat, count: nat)
      requires Buffers() && 1 <= n <= outputLength && outputLength + count * n <= OUTPUT_MAX
      modifies this`outputLength, output
      ensures outputLength == old(outputLength) + count * n
      ensures output[..outputLength] == Repeat(old(output[..outputLength]), n, count)
    {
      hide Repeat;
      var end := outputLength + count * n;
      ghost var out, left, todo: nat := output[..outputLength], count, count * n;
      while outputLength < end
        invariant n <= outputLength && end == outputLength + todo && todo == left * n
        invariant Repeat(output[..outputLength], n, left) == Repeat(out, n, count)
        decreases todo
      {
        ghost var before := output[..outputLength];
        RepeatOnce(before, n, left);
        LastAgain(n);
        left := left - 1;
        todo := todo - n;
      }
      RepeatOnce(output[..outputLength], n, left);
    }

    static lemma RepeatOnce(out: seq<byte>, n: nat, left: nat)
      requires 1 <= n <= |out|
      ensures left * n > 0 ==> left > 0 && left * n - n == (left - 1) * n >= 0
      ensures left * n > 0 ==> Repeat(out, n, left) == Repeat(out + out[|out| - n..], n, left - 1)
      ensures left * n == 0 ==> Repeat(out, n, left) == out
    {
    }

    method ReadRun() returns (ok: bool, n: nat, count: nat)
      requires BitsOk() && bitsLeft < 8
      modifies this`input, this`bitsBuffer, this`bitsLeft, this`pending
      ensures ok == RunFields(old(Source())).Some?
      ensures ok ==> BitsOk() && bitsLeft < 8 && n >= 1 && RunFields(old(Source())) == Some((n, count, Source()))
    {
      hide CffSpec.GetCode, Val, Pow2, Stream;
      n, count := 0, 0;
      var sel;
      ok, n := GetCode(2);
      if !ok { return; }
      n := n + 1;
      ok, sel := GetCode(2);
      if !ok { return; }
      ok, count := GetCode(4 * Pow2(sel));
    }

    method RunLength() returns (f: Flow)
      requires Valid()
      modifies this, theString, output
      ensures Took(CffSpec.RunLength(old(Now())), f) && f != End
    {
      hide HeapSize, EntriesAt, RunFields, Repeat, CffSpec.StartString, Holds;
      ghost var s := Now();
      var ok, n, count := ReadRun();
      if !ok { return PastInput; }
      if n > outputLength || count > 0x10000 || outputLength + count * n > OUTPUT_MAX {
        return Fail;
      }
      assert Now() == s.(r := Source());
      RepeatOutput(n, count);
      assert CffSpec.RunLength(s) == CffSpec.StartString(Now());
      f := StartString();
    }

    /** theString grows by the first byte of buffer `from`. */
    method Extend(from: array<byte>)
      requires Holds(theString[..], 0, cur) && |cur| <= 0xEF && theString.Length == 256 && from.Length == 256
      modifies theString
      ensures Holds(theString[..], 0, cur + [old(from[1])])
    {
      var size := theString[0] + 1;
      ghost var t := theString[..];
      theString[size] := from[1];
      theString[0] := size;
      assert theString[1..1 + |cur|] == t[1..1 + |cur|];
      assert theString[1..1 + size] == theString[1..size] + [theString[size]];
    }

    /** A dictionary code or a literal: completes the entry that the last string began, then
        outputs the string of the code. */
    method Phrase(code: nat) returns (f: Flow)
      requires Valid()
      modifies this, theString, output, heap, dictionary
      ensures Took(CffSpec.Phrase(old(Now()), code), f) && f != End
    {
      hide HeapSize, EntriesAt, Holds;
      ghost var s, last := Now(), 0;
      if code >= FIRST_ENTRY + dictionaryLength {
        last := Head(cur);
        assert theString[1] == last by { HeldHead(); }
        Extend(theString);
      } else {
        last := Head(Translate(dict, code));
        var temp := new byte[256];
        TranslateCode(code, temp);
        assert temp[1] == last by { TranslatedHead(temp[..], Translate(dict, code)); }
        Extend(temp);
      }
      ExpandDictionary(cur + [last]);
      TranslateCode(code, theString);
      cur := Translate(dict, code);
      assert Now() == s.(dict := Expand(s.dict, s.cur + [last]), cur := cur);
      f := PutTheString();
    }

    lemma HeldHead()
      requires Valid()
      ensures theString[1] == Head(cur)
    {
      TranslatedHead(theString[..], cur);
    }

    static lemma TranslatedHead(a: seq<byte>, s: seq<byte>)
      requires |a| == 256 && Holds(a, 0, s) && (s == [] ==> a[1] == 0)
      ensures a[1] == Head(s)
    {
      if s != [] { assert a[1..1 + |s|][0] == s[0]; }
    }

    /** One turn of the main loop. */
    method Turn() returns (f: Flow)
      requires Valid()
      modifies this, theString, output, heap, dictionary
      ensures Took(Decode(old(Now())), f)
    {
      hide HeapSize, EntriesAt, Holds, CffSpec.GetCode, CffSpec.StartBlock, CffSpec.RunLength, CffSpec.Phrase;
      var ok, code := GetCode(codeLength);
      if !ok {
        f := PastInput;
      } else if code == 0 {
        f := End;
      } else if code == 1 {
        f := StartBlock();
      } else if code == 2 {
        codeLength := codeLength + 1;
        f := if codeLength > 16 then Fail else Continue;
      } else if code == 3 {
        f := RunLength();
      } else {
        f := Phrase(code);
      }
    }

    /** Unpacks the whole input; the result 0 stands for an error as well as for empty output. */
    method Unpack() returns (f: Flow, length: nat)
      requires Prepared()
      modifies this, theString, output, heap, dictionary
      ensures f != Continue
      ensures f == PastInput <==> Unpacked(ibuf) == Overrun
      ensures f == Fail <==> Unpacked(ibuf) == Failed
      ensures f == Fail ==> length == 0
      ensures f == End ==> length <= OUTPUT_MAX && Unpacked(ibuf) == Done(output[..length])
    {
      hide HeapSize, EntriesAt, Decode, Run, Stream, Holds, CffSpec.GetCode, Translate;
      length := 0;
      if |ibuf| < 16 {
        return PastInput, 0;
      }
      if ibuf[..16] != SIGNATURE {
        return Fail, 0;
      }
      input := 16;
      outputLength := 0;
      f := StartBlock();
      while f == Continue
        invariant f == Continue ==> Valid() && codeLength > 0 && Run(Now()) == Unpacked(ibuf)
        invariant f == End ==> Prepared() && Unpacked(ibuf) == Done(output[..outputLength])
        invariant f == Fail ==> Unpacked(ibuf) == Failed
        invariant f == PastInput ==> Unpacked(ibuf) == Overrun
        decreases f == Continue, if f == Continue then |Stream(Source())| else 0
      {
        RunStep(Now());
        f := Turn();
      }
      length := if f == End then outputLength else 0;
    }
  }
}
