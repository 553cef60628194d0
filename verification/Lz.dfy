/** Copying from output that has just been written, as all LZ77 decoders here do it. */
module Lz {
  import opened Bits

  /** `count` bytes from `back` bytes before the end, one at a time. */
  function Copied(out: seq<byte>, back: nat, count: nat): (r: seq<byte>)
    requires 1 <= back <= |out|
    ensures |r| == |out| + count && r[..|out|] == out
    decreases count
  {
    if count == 0 then out
    else
      var r := Copied(out + [out[|out| - back]], back, count - 1);
      assert r[..|out|] == r[..|out| + 1][..|out|];
      r
  }

  lemma CopyStep(out: seq<byte>, back: nat, count: nat)
    requires 1 <= back <= |out|
    ensures Copied(out, back, count) ==
              if count == 0 then out else Copied(out + [out[|out| - back]], back, count - 1)
  {
  }

  /** What overlapping means: the copy repeats the last `back` bytes with period `back`. */
  lemma {:induction false} CopyIsPeriodic(out: seq<byte>, back: nat, count: nat)
    requires 1 <= back <= |out|
    ensures forall k :: |out| <= k < |out| + count ==> Copied(out, back, count)[k] == Copied(out, back, count)[k - back]
    decreases count
  {
    if count > 0 {
      var out' := out + [out[|out| - back]];
      var r := Copied(out', back, count - 1);
      CopyIsPeriodic(out', back, count - 1);
      assert r[|out|] == r[..|out'|][|out|] == out'[|out'| - 1 - back];
      assert r[|out| - back] == r[..|out'|][|out| - back];
    }
  }
}
