/** HsqDecompress and SqxDecompress of src/herad.cpp, with their two encodings of the bit queue. */
module Herad {
  import opened Wrappers
  import opened Bits
  import opened Machine
  import opened Lz
  import opened HeradSpec
  import opened HeradFiles

  /** A bit queue: the bits not yet used, lowest first, and a sentinel bit above them. */
  function Queue(bits: seq<bool>): (q: nat)
    ensures q >= 1
  {
    Val(bits) + Pow2(|bits|)
  }

  lemma QueueStep(bits: seq<bool>)
    ensures bits == [] ==> Queue(bits) == 1
    ensures bits != [] ==> Queue(bits) > 1
                           && (Queue(bits) % 2 == 1 <==> bits[0])
                           && Queue(bits) / 2 == Queue(bits[1..])
  {
    if bits != [] {
      assert Pow2(|bits|) == 2 * Pow2(|bits| - 1);
    }
  }

  lemma QueueOfWord(w: nat)
    requires w < 0x1_0000
    ensures Queue(ToBits(w, 16)) == w + 0x1_0000
  {
    PowersOfTwo(16);
    ValOfBits(w, 16);
  }

  /** A word whose first bit is used at once. */
  lemma QueueOfNewWord(w: nat)
    requires w < 0x1_0000
    ensures (ToBits(w, 16)[0] <==> w % 2 == 1) && w / 2 + 0x8000 == Queue(ToBits(w, 16)[1..])
  {
    hide Queue;
    QueueOfWord(w);
    QueueStep(ToBits(w, 16));
  }

  /** A queue of less than 16 bits and its sentinel fit 16 bits. */
  lemma QueueBound(bits: seq<bool>)
    ensures |bits| <= 15 ==> Queue(bits) < 0x1_0000
  {
    ValBound(bits);
    if |bits| <= 15 {
      Pow2Monotone(|bits|, 15);
      PowersOfTwo(16);
      assert Pow2(16) == 2 * Pow2(15);
    }
  }

  datatype Flow = Continue | End | Outside

  class Unpacker {
    const data: seq<byte>
    const out: array<byte>
    var queue: nat
    var src: nat
    var dst: nat

    ghost var bits: seq<bool>

    constructor (data: seq<byte>, out: array<byte>)
      ensures this.data == data && this.out == out
      ensures Valid() && bits == [] && src == 6 && dst == 0
    {
      this.data, this.out := data, out;
      queue, src, dst, bits := 1, 6, 0, [];
    }

    /** Both decoders start with the queue that holds nothing but its sentinel, and keep the
        queue as long as the bits it stands for. */
    ghost predicate Valid()
      reads this
    {
      queue == Queue(bits) && |bits| <= 15 && dst <= out.Length
    }

    ghost function Now(): State
      reads this, out
      requires dst <= out.Length
    {
      State(bits, src, out[..dst])
    }

    ghost predicate Took(x: Step, f: Flow)
      reads this, out
    {
      match f
      case Continue => Valid() && x == Go(Now())
      case End => Valid() && x == Stop(Done(out[..dst]))
      case Outside => x == Stop(OutOfBounds)
    }

    /** HSQ: a queue of 32 bits, refilled when only the sentinel is left. */
    method HsqBit() returns (ok: bool, bit: bool)
      requires Valid()
      modifies this`queue, this`src, this`bits
      ensures Valid()
      ensures ok <==> GetBit(data, old(Now())) != None
      ensures ok ==> GetBit(data, old(Now())) == Some((bit, Now()))
    {
      QueueStep(bits);
      if queue == 1 {
        if src + 2 > |data| { return false, false; }
        queue := U16(data, src) + 0x1_0000;
        QueueOfWord(U16(data, src));
        bits := ToBits(U16(data, src), 16);
        src := src + 2;
        QueueStep(bits);
      }
      bit := queue % 2 == 1;
      queue := queue / 2;
      bits := bits[1..];
      ok := true;
    }

    /** SQX: a queue of 16 bits.  The bit with which it becomes empty is not data but the
        sentinel, which is put back above the rest of the next word. */
    method SqxBit() returns (ok: bool, bit: bool)
      requires Valid()
      modifies this`queue, this`src, this`bits
      ensures Valid() && queue < 0x1_0000
      ensures ok <==> GetBit(data, old(Now())) != None
      ensures ok ==> GetBit(data, old(Now())) == Some((bit, Now()))
    {
      QueueStep(bits);
      QueueBound(bits);
      bit := queue % 2 == 1;
      if queue / 2 == 0 {
        if src + 2 > |data| { return false, false; }
        queue := U16(data, src);
        ghost var w := queue;
        src := src + 2;
        var bitP := bit;
        assert bitP;
        bit := queue % 2 == 1;
        queue := queue / 2;
        queue := queue + if bitP then 0x8000 else 0;
        QueueOfWord(w);
        bits := ToBits(w, 16);
        QueueStep(bits);
      } else {
        queue := queue / 2;
      }
      bits := bits[1..];
      QueueBound(bits);
      ok := true;
    }

    /** SQX's two-bit count, inlined so that after a refill the second bit is taken unchecked. */
    method SqxCount() returns (ok: bool, count: nat)
      requires Valid()
      modifies this`queue, this`src, this`bits
      ensures Valid()
      ensures var first := GetBit(data, old(Now()));
              var second := if first == None then None else GetBit(data, first.value.1);
              && (ok <==> second != None)
              && (ok ==> second.value.1 == Now()
                         && count == (if first.value.0 then 2 else 0) + (if second.value.0 then 1 else 0))
    {
      hide Queue, ToBits, U16;
      ghost var s := Now();
      QueueStep(bits);
      count := 0;
      var bit := queue % 2;
      if queue / 2 == 0 {
        if src + 2 > |data| { return false, 0; }
        queue := U16(data, src);
        ghost var w := queue;
        src := src + 2;
        var bitP := bit;
        bit := queue % 2;
        queue := queue / 2;
        queue := queue + if bitP == 1 then 0x8000 else 0;
        QueueOfNewWord(w);
        bits := ToBits(w, 16);
        bits := bits[1..];
        assert GetBit(data, s) == Some((bit == 1, Now()));
        QueueStep(bits);
        count := bit;
        bit := queue % 2;
        queue := queue / 2;
        bits := bits[1..];
      } else {
        queue := queue / 2;
        bits := bits[1..];
        assert GetBit(data, s) == Some((bit == 1, Now()));
        count := bit;
        QueueStep(bits);
        bit := queue % 2;
        if queue / 2 == 0 {
          if src + 2 > |data| { return false, 0; }
          queue := U16(data, src);
          ghost var w := queue;
          src := src + 2;
          var bitP := bit;
          bit := queue % 2;
          queue := queue / 2;
          queue := queue + if bitP == 1 then 0x8000 else 0;
          QueueOfNewWord(w);
          bits := ToBits(w, 16);
        } else {
          queue := queue / 2;
        }
        bits := bits[1..];
      }
      count := count * 2 + bit;
      ok := true;
    }

    method PutByte(b: byte)
      requires dst < out.Length
      modifies this`dst, out
      ensures dst == old(dst) + 1 && out[..dst] == old(out[..dst]) + [b]
    {
      out[dst] := b;
      dst := dst + 1;
    }

    /** Copies `count` bytes within the output, one at a time, so that they may overlap. */
    method CopyBytes(back: nat, count: nat)
      requires 1 <= back <= dst && dst + count <= out.Length
      modifies this`dst, out
      ensures dst == old(dst) + count && out[..dst] == Copied(old(out[..dst]), back, count)
    {
      hide Copied;
      ghost var before := out[..dst];
      var left := count;
      while left > 0
        invariant 0 <= left <= count && dst + left == old(dst) + count && back <= dst
        invariant Copied(out[..dst], back, left) == Copied(before, back, count)
      {
        CopyStep(out[..dst], back, left);
        PutByte(out[dst - back]);
        left := left - 1;
      }
      CopyStep(out[..dst], back, 0);
    }

    method CopyBack(back: nat, count: nat) returns (f: Flow)
      requires Valid()
      modifies this`dst, out
      ensures Took(Copy(old(Now()), back, count, out.Length), f) && f != End
    {
      hide Copied, Queue;
      if back == 0 || back > dst || dst + count > out.Length {
        return Outside;
      }
      CopyBytes(back, count);
      f := Continue;
    }

    method CopyLiteral() returns (f: Flow)
      requires Valid()
      modifies this`src, this`dst, out
      ensures Took(GetLiteral(data, old(Now()), out.Length), f) && f != End
    {
      if src >= |data| || dst >= out.Length {
        return Outside;
      }
      out[dst] := data[src];
      dst, src := dst + 1, src + 1;
      f := Continue;
    }

    method CopyFar(countBits: nat) returns (f: Flow)
      requires Valid() && countBits <= 16
      modifies this`src, this`dst, out
      ensures Took(GetFar(data, old(Now()), countBits, out.Length), f)
    {
      hide Copied, Pow2, Queue;
      if src + 2 > |data| {
        return Outside;
      }
      var w := U16(data, src);
      var back := BackOf(w, countBits);
      var count := w % Pow2(countBits);
      src := src + 2;
      if count == 0 {
        if src >= |data| {
          return Outside;
        }
        count := data[src];
        src := src + 1;
      }
      if count == 0 {
        return End;
      }
      count := count + 2;
      f := CopyBack(back, count);
    }

    method HsqNear() returns (f: Flow)
      requires Valid()
      modifies this`queue, this`src, this`bits, this`dst, out
      ensures Took(GetNear(data, old(Now()), out.Length), f) && f != End
    {
      hide Copied, Queue, GetBit;
      var ok, hi := HsqBit();
      if !ok { return Outside; }
      var ok2, lo := HsqBit();
      if !ok2 || src >= |data| { return Outside; }
      var back := 0x100 - (data[src] as int);
      src := src + 1;
      f := CopyBack(back, (if hi then 2 else 0) + (if lo then 1 else 0) + 2);
    }

    method SqxNear() returns (f: Flow)
      requires Valid()
      modifies this`queue, this`src, this`bits, this`dst, out
      ensures Took(GetNear(data, old(Now()), out.Length), f) && f != End
    {
      hide Copied, Queue, GetBit;
      var ok, count := SqxCount();
      if !ok || src >= |data| { return Outside; }
      var back := 0x100 - (data[src] as int);
      src := src + 1;
      f := CopyBack(back, count + 2);
    }

    /** One turn of HsqDecompress. */
    method HsqTurn() returns (f: Flow)
      requires Valid()
      modifies this, out
      ensures Took(Decode(data, HSQ, old(Now()), out.Length), f)
    {
      hide Queue, GetBit, GetLiteral, GetNear, GetFar;
      var ok, bit := HsqBit();
      if !ok { return Outside; }
      if bit {
        f := CopyLiteral();
      } else {
        var ok2, bit2 := HsqBit();
        if !ok2 { return Outside; }
        if bit2 {
          f := CopyFar(3);
        } else {
          f := HsqNear();
        }
      }
    }

    /** The three-way switch of SqxDecompress. */
    method SqxSwitch(flag: byte) returns (f: Flow)
      requires Valid() && |data| >= 6 && flag <= 2 && 1 <= data[5] <= 15
      modifies this, out
      ensures Took(Get(data, Sqx(data), old(Now()), ModeOf(flag), out.Length), f)
    {
      hide Queue, GetBit, GetLiteral, GetNear, GetFar;
      if flag == 0 {
        f := CopyLiteral();
      } else if flag == 1 {
        f := SqxNear();
      } else {
        f := CopyFar(data[5]);
      }
    }

    /** One turn of SqxDecompress. */
    method SqxTurn() returns (f: Flow)
      requires Valid() && IsSqx(data)
      modifies this, out
      ensures Took(Decode(data, Sqx(data), old(Now()), out.Length), f)
    {
      hide Queue, GetBit, Get;
      var ok, bit := SqxBit();
      if !ok { return Outside; }
      if !bit {
        f := SqxSwitch(data[2]);
      } else {
        var ok2, bit2 := SqxBit();
        if !ok2 { return Outside; }
        if !bit2 {
          f := SqxSwitch(data[3]);
        } else {
          f := SqxSwitch(data[4]);
        }
      }
    }
  }

  /** Returns the size the header declares, whatever was unpacked. */
  method HsqDecompress(data: seq<byte>, out: array<byte>) returns (ok: bool, size: nat, ghost length: nat)
    requires |data| >= 6
    modifies out
    ensures ok <==> Unpacked(data, HSQ, out.Length).Done?
    ensures ok ==> length <= out.Length && Unpacked(data, HSQ, out.Length) == Done(out[..length])
    ensures size == U16(data, 0)
    ensures forall ps :: IsHsqFile(data, ps) && |Spelled([], ps)| <= out.Length ==> ok && out[..length] == Spelled([], ps)
  {
    hide Decode, Queue, IsHsqFile, Spelled;
    size := U16(data, 0);
    var u := new Unpacker(data, out);
    var f := Continue;
    while f == Continue
      invariant u.data == data && u.out == out && fresh(u)
      invariant f == Continue ==> u.Valid() && Run(data, HSQ, u.Now(), out.Length) == Unpacked(data, HSQ, out.Length)
      invariant f == End ==> u.Valid() && Unpacked(data, HSQ, out.Length) == Done(out[..u.dst])
      invariant f == Outside ==> Unpacked(data, HSQ, out.Length) == OutOfBounds
      decreases f == Continue, Room(data, State(u.bits, u.src, []))
    {
      f := u.HsqTurn();
    }
    ok, length := f == End, u.dst;
    forall ps | IsHsqFile(data, ps) && |Spelled([], ps)| <= out.Length
      ensures ok && out[..length] == Spelled([], ps)
    {
      HsqFileUnpacks(data, ps, out.Length);
    }
  }

  /** Returns the number of bytes unpacked, in 16 bits. */
  method SqxDecompress(data: seq<byte>, out: array<byte>) returns (ok: bool, size: nat, ghost length: nat)
    requires IsSqx(data) && out.Length >= 2
    modifies out
    ensures ok <==> Unpacked(data, Sqx(data), out.Length).Done?
    ensures ok ==> length <= out.Length && Unpacked(data, Sqx(data), out.Length) == Done(out[..length])
    ensures ok ==> size == length % 0x1_0000
    ensures forall ps, end :: IsSqxFile(data, ps, end) && |Spelled([], ps)| <= out.Length ==> ok && out[..length] == Spelled([], ps)
  {
    hide Decode, Queue, IsSqxFile, Spelled;
    out[0], out[1] := data[0], data[1];
    var u := new Unpacker(data, out);
    var f := Continue;
    while f == Continue
      invariant u.data == data && u.out == out && fresh(u)
      invariant f == Continue ==> u.Valid() && Run(data, Sqx(data), u.Now(), out.Length) == Unpacked(data, Sqx(data), out.Length)
      invariant f == End ==> u.Valid() && Unpacked(data, Sqx(data), out.Length) == Done(out[..u.dst])
      invariant f == Outside ==> Unpacked(data, Sqx(data), out.Length) == OutOfBounds
      decreases f == Continue, Room(data, State(u.bits, u.src, []))
    {
      f := u.SqxTurn();
    }
    ok, length := f == End, u.dst;
    size := u.dst % 0x1_0000;
    forall ps, end | IsSqxFile(data, ps, end) && |Spelled([], ps)| <= out.Length
      ensures ok && out[..length] == Spelled([], ps)
    {
      SqxFileUnpacks(data, ps, end, out.Length);
    }
  }
}
