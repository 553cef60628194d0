/** The two checksums in a database key: CKey::make of src/database.cpp.

    Both are reflected CRCs that differ in their polynomial only, so one set of functions serves
    them: the 16-bit register is the low half of a bv32.  A byte is a bv32 below 0x100. */
module Crc {
  type octet = b: bv32 | b < 0x100

  const MAGIC16: bv32 := 0xa001
  const MAGIC32: bv32 := 0xedb8_8320

  predicate Polynomial(m: bv32) {
    m == MAGIC16 || m == MAGIC32
  }

  /** A register of the polynomial's width. */
  predicate Fits(m: bv32, c: bv32) {
    m == MAGIC32 || c < 0x1_0000
  }

  // Words: named operations, and the few facts about them that the proofs use

  function Xor(a: bv32, b: bv32): bv32 {
    a ^ b
  }

  function Half(a: bv32): bv32 {
    a >> 1
  }

  predicate Odd(a: bv32) {
    a & 1 == 1
  }

  lemma XorComm(a: bv32, b: bv32)
    ensures Xor(a, b) == Xor(b, a)
  {
  }

  lemma XorAssoc(a: bv32, b: bv32, c: bv32)
    ensures Xor(Xor(a, b), c) == Xor(a, Xor(b, c))
  {
  }

  lemma XorTwice(a: bv32, b: bv32)
    ensures Xor(Xor(a, b), b) == a
  {
  }

  lemma XorZero(a: bv32)
    ensures Xor(a, 0) == a
  {
  }

  lemma XorBits(a: bv32, b: bv32)
    ensures Half(Xor(a, b)) == Xor(Half(a), Half(b))
    ensures Odd(Xor(a, b)) <==> Odd(a) != Odd(b)
  {
  }

  lemma Rebuild(a: bv32, b: bv32)
    ensures Half(a) == Half(b) && (Odd(a) <==> Odd(b)) ==> a == b
  {
    assert a == ((a >> 1) << 1) ^ (a & 1) && b == ((b >> 1) << 1) ^ (b & 1);
  }

  /** The top bit of a step's result tells whether the polynomial was added. */
  lemma TopBit(a: bv32, b: bv32)
    ensures Half(a) != Xor(Half(b), MAGIC32)
    ensures a < 0x1_0000 && b < 0x1_0000 ==> Half(a) != Xor(Half(b), MAGIC16)
    ensures a < 0x1_0000 ==> Half(a) < 0x1_0000 && Xor(Half(a), MAGIC16) < 0x1_0000
  {
    assert (a >> 1) & 0x8000_0000 == 0;
    assert ((b >> 1) ^ 0xedb8_8320) & 0x8000_0000 != 0;
    assert b < 0x1_0000 ==> ((b >> 1) ^ 0xa001) & 0x8000 != 0;
    assert a < 0x1_0000 ==> (a >> 1) & 0x8000 == 0;
  }

  lemma OctetFits(c: bv32, b: bv32)
    requires b < 0x100
    ensures c < 0x1_0000 ==> Xor(c, b) < 0x1_0000
  {
  }

  // One bit, one byte, one file

  function Bit(m: bv32, c: bv32, b: bv32): bv32 {
    if Odd(Xor(c, b)) then Xor(Half(c), m) else Half(c)
  }

  function Bits(m: bv32, c: bv32, b: bv32, n: nat): bv32
    decreases n
  {
    if n == 0 then c else Bits(m, Bit(m, c, b), Half(b), n - 1)
  }

  function Bytes(m: bv32, c: bv32, s: seq<octet>): bv32
    decreases |s|
  {
    if s == [] then c else Bytes(m, Bits(m, c, s[0], 8), s[1..])
  }

  function Crc16(file: seq<octet>): bv32 {
    Bytes(MAGIC16, 0, file)
  }

  function Crc32(file: seq<octet>): bv32 {
    Xor(Bytes(MAGIC32, 0xffff_ffff, file), 0xffff_ffff)
  }

  /** Both checksums take one byte, bit by bit. */
  method Feed(c16: bv32, c32: bv32, b: octet) returns (crc16: bv32, crc32: bv32)
    ensures crc16 == Bits(MAGIC16, c16, b, 8) && crc32 == Bits(MAGIC32, c32, b, 8)
  {
    hide Xor, Half, Odd;
    crc16, crc32 := c16, c32;
    var byte: bv32 := b;
    for j := 0 to 8
      invariant Bits(MAGIC16, crc16, byte, 8 - j) == Bits(MAGIC16, c16, b, 8)
      invariant Bits(MAGIC32, crc32, byte, 8 - j) == Bits(MAGIC32, c32, b, 8)
    {
      if Odd(Xor(crc16, byte)) {
        crc16 := Xor(Half(crc16), MAGIC16);
      } else {
        crc16 := Half(crc16);
      }
      if Odd(Xor(crc32, byte)) {
        crc32 := Xor(Half(crc32), MAGIC32);
      } else {
        crc32 := Half(crc32);
      }
      byte := Half(byte);
    }
  }

  /** The key of a file. */
  method Make(file: seq<octet>) returns (crc16: bv32, crc32: bv32)
    ensures crc16 == Crc16(file) && crc32 == Crc32(file)
  {
    hide Xor, Bits;
    crc16, crc32 := 0, 0xffff_ffff;
    for i := 0 to |file|
      invariant Bytes(MAGIC16, crc16, file[i..]) == Bytes(MAGIC16, 0, file)
      invariant Bytes(MAGIC32, crc32, file[i..]) == Bytes(MAGIC32, 0xffff_ffff, file)
    {
      crc16, crc32 := Feed(crc16, crc32, file[i]);
      assert file[i..][1..] == file[i + 1..];
    }
    crc32 := Xor(crc32, 0xffff_ffff);
  }

  // The register alone

  function Step(m: bv32, c: bv32): bv32 {
    if Odd(c) then Xor(Half(c), m) else Half(c)
  }

  function Steps(m: bv32, c: bv32, n: nat): bv32
    decreases n
  {
    if n == 0 then c else Steps(m, Step(m, c), n - 1)
  }

  function Shift(z: bv32, n: nat): bv32
    decreases n
  {
    if n == 0 then z else Shift(Half(z), n - 1)
  }

  lemma StepInjective(m: bv32, c: bv32, d: bv32)
    requires Polynomial(m) && Fits(m, c) && Fits(m, d)
    ensures Step(m, c) == Step(m, d) ==> c == d
    ensures Fits(m, Step(m, c))
  {
    hide Xor, Half, Odd;
    TopBit(c, d);
    TopBit(d, c);
    Rebuild(c, d);
    XorTwice(Half(c), m);
    XorTwice(Half(d), m);
  }

  lemma {:induction false} StepsInjective(m: bv32, c: bv32, d: bv32, n: nat)
    requires Polynomial(m) && Fits(m, c) && Fits(m, d)
    ensures Steps(m, c, n) == Steps(m, d, n) ==> c == d
    ensures Fits(m, Steps(m, c, n))
    decreases n
  {
    hide Xor, Half, Odd, Step, Fits, Polynomial;
    if n > 0 {
      StepInjective(m, c, d);
      StepInjective(m, d, c);
      StepsInjective(m, Step(m, c), Step(m, d), n - 1);
    }
  }

  lemma NoSteps(m: bv32, c: bv32)
    ensures Steps(m, c, 0) == c
  {
  }

  lemma {:induction false} StepsAdd(m: bv32, c: bv32, k: nat, n: nat)
    ensures Steps(m, Steps(m, c, k), n) == Steps(m, c, k + n)
    decreases k
  {
    hide Step;
    if k > 0 { StepsAdd(m, Step(m, c), k - 1, n); }
  }

  /** Bits of another word pass through the register as long as they are zero when it is tested. */
  lemma StepPasses(m: bv32, c: bv32, z: bv32)
    requires !Odd(z)
    ensures Step(m, Xor(c, z)) == Xor(Step(m, c), Half(z))
  {
    hide Xor, Half, Odd;
    XorBits(c, z);
    XorAssoc(Half(c), Half(z), m);
    XorComm(Half(z), m);
    XorAssoc(Half(c), m, Half(z));
  }

  lemma BitIsStep(m: bv32, c: bv32, b: bv32)
    ensures Xor(Bit(m, c, b), Half(b)) == Step(m, Xor(c, b))
  {
    hide Xor, Half, Odd;
    XorBits(c, b);
    XorAssoc(Half(c), Half(b), m);
    XorComm(Half(b), m);
    XorAssoc(Half(c), m, Half(b));
  }

  /** Feeding `n` bits of `b` one at a time is adding `b` to the register and stepping, but for
      the bits of `b` not yet fed. */
  lemma {:induction false} BitsAreSteps(m: bv32, c: bv32, b: bv32, n: nat)
    ensures Xor(Bits(m, c, b, n), Shift(b, n)) == Steps(m, Xor(c, b), n)
    decreases n
  {
    hide Xor, Half, Odd, Bit, Step;
    if n > 0 {
      BitIsStep(m, c, b);
      BitsAreSteps(m, Bit(m, c, b), Half(b), n - 1);
    }
  }

  /** Zero bits at the low end of a word: it passes through `n` steps unchanged but for its place. */
  predicate Trailing(z: bv32, n: nat)
    decreases n
  {
    n == 0 || (!Odd(z) && Trailing(Half(z), n - 1))
  }

  lemma {:induction false} StepsPass(m: bv32, c: bv32, z: bv32, n: nat)
    requires Trailing(z, n)
    ensures Steps(m, Xor(c, z), n) == Xor(Steps(m, c, n), Shift(z, n))
    decreases n
  {
    hide Xor, Half, Odd, Step;
    if n > 0 {
      StepPasses(m, c, z);
      StepsPass(m, Step(m, c), Half(z), n - 1);
    }
  }

  lemma EightShifts(z: bv32)
    ensures Shift(z, 8) == z >> 8
    ensures z & 0xff == 0 ==> Trailing(z, 8)
  {
    var z1, z2, z3, z4 := z >> 1, z >> 2, z >> 3, z >> 4;
    var z5, z6, z7, z8 := z >> 5, z >> 6, z >> 7, z >> 8;
    HalfChain(z);
    hide Half, Odd;
    assert Shift(z4, 4) == z8 && Shift(z, 8) == Shift(z4, 4);
    assert z & 0xff == 0 ==> Trailing(z4, 4);
  }

  lemma HalfChain(z: bv32)
    ensures Half(z) == z >> 1 && Half(z >> 1) == z >> 2 && Half(z >> 2) == z >> 3 && Half(z >> 3) == z >> 4
    ensures Half(z >> 4) == z >> 5 && Half(z >> 5) == z >> 6 && Half(z >> 6) == z >> 7 && Half(z >> 7) == z >> 8
    ensures z & 0xff == 0 ==> !Odd(z) && !Odd(z >> 1) && !Odd(z >> 2) && !Odd(z >> 3)
                              && !Odd(z >> 4) && !Odd(z >> 5) && !Odd(z >> 6) && !Odd(z >> 7)
  {
  }

  lemma ByteAtOnce(m: bv32, c: bv32, b: octet)
    ensures Bits(m, c, b, 8) == Steps(m, Xor(c, b), 8)
  {
    BitsAreSteps(m, c, b, 8);
    EightShifts(b);
    assert (b as bv32) >> 8 == 0;
    assert Xor(Bits(m, c, b, 8), 0) == Bits(m, c, b, 8);
  }

  // What the checksums detect

  lemma ByteInjective(m: bv32, c: bv32, d: bv32, b: octet)
    requires Polynomial(m) && Fits(m, c) && Fits(m, d)
    ensures Bits(m, c, b, 8) == Bits(m, d, b, 8) ==> c == d
    ensures Fits(m, Bits(m, c, b, 8))
  {
    hide Xor, Half, Odd, Bits, Steps;
    ByteAtOnce(m, c, b);
    ByteAtOnce(m, d, b);
    OctetFits(c, b);
    OctetFits(d, b);
    StepsInjective(m, Xor(c, b), Xor(d, b), 8);
    XorTwice(c, b);
    XorTwice(d, b);
  }

  /** Different registers stay different over the same bytes. */
  lemma {:induction false} BytesInjective(m: bv32, c: bv32, d: bv32, s: seq<octet>)
    requires Polynomial(m) && Fits(m, c) && Fits(m, d)
    ensures Bytes(m, c, s) == Bytes(m, d, s) ==> c == d
    ensures Fits(m, Bytes(m, c, s))
    decreases |s|
  {
    hide Bits, Fits;
    if s != [] {
      ByteInjective(m, c, d, s[0]);
      ByteInjective(m, d, c, s[0]);
      BytesInjective(m, Bits(m, c, s[0], 8), Bits(m, d, s[0], 8), s[1..]);
    }
  }

  lemma {:induction false} BytesConcat(m: bv32, c: bv32, s: seq<octet>, t: seq<octet>)
    ensures Bytes(m, c, s + t) == Bytes(m, Bytes(m, c, s), t)
    decreases |s|
  {
    hide Bits;
    if s == [] {
      assert s + t == t;
    } else {
      assert (s + t)[1..] == s[1..] + t;
      BytesConcat(m, Bits(m, c, s[0], 8), s[1..], t);
    }
  }

  function Up(z: bv32): bv32 {
    z << 8
  }

  function Down(z: bv32): bv32 {
    z >> 8
  }

  /** A word of at most `k` bytes. */
  predicate Below(z: bv32, k: nat) {
    if k == 0 then z == 0 else if k == 1 then z < 0x100 else if k == 2 then z < 0x1_0000
    else if k == 3 then z < 0x100_0000 else true
  }

  /** Up to four bytes as a word, the first one lowest. */
  function Word(s: seq<octet>): bv32 {
    if s == [] then 0 else Xor(s[0], Up(Word(s[1..])))
  }

  /** The width of a polynomial in bytes. */
  function Width(m: bv32): nat {
    if m == MAGIC16 then 2 else 4
  }

  lemma UpAndDown(z: bv32, k: nat)
    requires k <= 3 && Below(z, k)
    ensures Down(Up(z)) == z
  {
    assert z < 0x100_0000;
  }

  lemma UpTrails(z: bv32)
    ensures Trailing(Up(z), 8) && Shift(Up(z), 8) == Down(Up(z))
  {
    EightShifts(z << 8);
    LowByteEmpty(z);
  }

  lemma LowByteEmpty(z: bv32)
    ensures (z << 8) & 0xff == 0
  {
  }

  lemma WordOf0(b: bv32, z: bv32)
    requires b < 0x100
    ensures z == 0 ==> Xor(b, Up(z)) < 0x100
    ensures z < 0x100 ==> Xor(b, Up(z)) < 0x1_0000
    ensures z < 0x1_0000 ==> Xor(b, Up(z)) < 0x100_0000
  {
  }

  lemma WordOf(b: octet, z: bv32, k: nat)
    ensures k <= 3 && Below(z, k) ==> Below(Xor(b, Up(z)), k + 1)
  {
    WordOf0(b, z);
  }

  lemma TwoWords(a: bv32, b: bv32, y: bv32, z: bv32)
    requires a < 0x100 && b < 0x100 && Xor(a, Up(y)) == Xor(b, Up(z))
    ensures a == b && Up(y) == Up(z)
  {
    assert a == (a ^ (y << 8)) & 0xff && b == (b ^ (z << 8)) & 0xff;
    XorTwice(Up(y), a);
    XorTwice(Up(z), b);
    XorComm(a, Up(y));
    XorComm(b, Up(z));
  }

  lemma {:induction false} WordBounds(s: seq<octet>)
    requires |s| <= 4
    ensures Below(Word(s), |s|)
    decreases |s|
  {
    hide Xor, Up, Below;
    if s == [] {
      ZeroBelow();
    } else {
      WordBounds(s[1..]);
      WordOf(s[0], Word(s[1..]), |s| - 1);
    }
  }

  lemma ZeroBelow()
    ensures Below(0, 0)
  {
  }

  lemma {:induction false} WordInjective(s: seq<octet>, t: seq<octet>)
    requires |s| == |t| <= 4 && Word(s) == Word(t)
    ensures s == t
  {
    hide Xor, Up, Down, Below;
    if s != [] {
      TwoWords(s[0], t[0], Word(s[1..]), Word(t[1..]));
      WordBounds(s[1..]);
      WordBounds(t[1..]);
      UpAndDown(Word(s[1..]), |s| - 1);
      UpAndDown(Word(t[1..]), |s| - 1);
      WordInjective(s[1..], t[1..]);
      assert s == [s[0]] + s[1..] && t == [t[0]] + t[1..];
    }
  }

  /** Up to four bytes go through the register like one word of that many bits. */
  lemma {:induction false} BytesAtOnce(m: bv32, c: bv32, s: seq<octet>)
    requires |s| <= 4
    ensures Bytes(m, c, s) == Steps(m, Xor(c, Word(s)), 8 * |s|)
    decreases |s|
  {
    hide Xor, Up, Down, Below, Bits, Steps, Trailing, Shift;
    if s == [] {
      XorZero(c);
      NoSteps(m, c);
    } else {
      var b, z := s[0], Word(s[1..]);
      ByteAtOnce(m, c, b);
      BytesAtOnce(m, Bits(m, c, b, 8), s[1..]);
      WordBounds(s[1..]);
      UpAndDown(z, |s| - 1);
      UpTrails(z);
      StepsPass(m, Xor(c, b), Up(z), 8);
      XorAssoc(c, b, Up(z));
      StepsAdd(m, Xor(c, Word(s)), 8, 8 * |s[1..]|);
    }
  }

  /** Two files of equal length that differ within a run of as many bytes as the checksum has --
      in a single byte, in particular -- never have the same checksum. */
  lemma BurstDetected(m: bv32, c: bv32, before: seq<octet>, s: seq<octet>, t: seq<octet>, after: seq<octet>)
    requires Polynomial(m) && Fits(m, c) && |s| == |t| <= Width(m) && s != t
    ensures Bytes(m, c, before + s + after) != Bytes(m, c, before + t + after)
  {
    hide Xor, Bytes, Steps, Fits, Word;
    var d := Bytes(m, c, before);
    BytesInjective(m, c, c, before);
    BytesConcat(m, c, before, s);
    BytesConcat(m, c, before, t);
    BytesConcat(m, c, before + s, after);
    BytesConcat(m, c, before + t, after);
    RunInjective(m, d, s, t);
    BytesInjective(m, d, d, s);
    BytesInjective(m, d, d, t);
    BytesInjective(m, Bytes(m, d, s), Bytes(m, d, t), after);
  }

  lemma RunInjective(m: bv32, d: bv32, s: seq<octet>, t: seq<octet>)
    requires Polynomial(m) && Fits(m, d) && |s| == |t| <= Width(m) && s != t
    ensures Bytes(m, d, s) != Bytes(m, d, t)
  {
    hide Xor, Bytes, Steps;
    BytesAtOnce(m, d, s);
    BytesAtOnce(m, d, t);
    RunFits(m, d, s);
    RunFits(m, d, t);
    StepsInjective(m, Xor(d, Word(s)), Xor(d, Word(t)), 8 * |s|);
    XorComm(d, Word(s));
    XorComm(d, Word(t));
    XorTwice(Word(s), d);
    XorTwice(Word(t), d);
    if Word(s) == Word(t) {
      WordInjective(s, t);
    }
  }

  lemma RunFits(m: bv32, d: bv32, s: seq<octet>)
    requires Fits(m, d) && Polynomial(m) && |s| <= Width(m)
    ensures Fits(m, Xor(d, Word(s)))
  {
    WordBounds(s);
    HalfWordFits(d, Word(s), |s|);
  }

  lemma HalfWordFits(d: bv32, w: bv32, k: nat)
    ensures d < 0x1_0000 && k <= 2 && Below(w, k) ==> Xor(d, w) < 0x1_0000
  {
  }

  /** The checksums of the key. */
  lemma KeyDetects(file: seq<octet>, i: nat, b: octet)
    requires i < |file| && file[i] != b
    ensures Crc16(file[i := b]) != Crc16(file)
    ensures Crc32(file[i := b]) != Crc32(file)
  {
    hide Xor, Bytes;
    assert file == file[..i] + [file[i]] + file[i + 1..];
    assert file[i := b] == file[..i] + [b] + file[i + 1..];
    BurstDetected(MAGIC16, 0, file[..i], [file[i]], [b], file[i + 1..]);
    BurstDetected(MAGIC32, 0xffff_ffff, file[..i], [file[i]], [b], file[i + 1..]);
    XorTwice(Bytes(MAGIC32, 0xffff_ffff, file), 0xffff_ffff);
    XorTwice(Bytes(MAGIC32, 0xffff_ffff, file[i := b]), 0xffff_ffff);
  }

  // The CRC-32 as section 8 of RFC 1952 defines it, by a table of 256 words

  function TableEntry(c: bv32, k: nat): bv32
    decreases k
  {
    if k == 0 then c
    else TableEntry(if c & 1 == 1 then 0xedb8_8320 ^ (c >> 1) else c >> 1, k - 1)
  }

  function TableUpdate(c: bv32, b: octet): bv32 {
    TableEntry((c ^ b) & 0xff, 8) ^ (c >> 8)
  }

  function UpdateCrc(c: bv32, buf: seq<octet>): bv32
    decreases |buf|
  {
    if buf == [] then c else UpdateCrc(TableUpdate(c, buf[0]), buf[1..])
  }

  function Rfc1952Crc(buf: seq<octet>): bv32 {
    UpdateCrc(0xffff_ffff, buf) ^ 0xffff_ffff
  }

  lemma {:induction false} TableIsSteps(c: bv32, k: nat)
    ensures TableEntry(c, k) == Steps(MAGIC32, c, k)
    decreases k
  {
    if k > 0 {
      var d := if c & 1 == 1 then 0xedb8_8320 ^ (c >> 1) else c >> 1;
      StepIsTableStep(c);
      TableIsSteps(d, k - 1);
    }
  }

  lemma StepIsTableStep(c: bv32)
    ensures Step(MAGIC32, c) == if c & 1 == 1 then 0xedb8_8320 ^ (c >> 1) else c >> 1
  {
    XorComm(c >> 1, 0xedb8_8320);
  }

  lemma SplitWord(c: bv32, b: octet)
    ensures Xor((c ^ b) & 0xff, Up(Down(c))) == Xor(c, b)
    ensures Down(Up(Down(c))) == Down(c)
  {
  }

  lemma UpdateParts(c: bv32, b: octet)
    ensures TableUpdate(c, b) == Xor(TableEntry((c ^ b) & 0xff, 8), Down(c))
  {
    hide TableEntry;
  }

  lemma TableByte(c: bv32, b: octet)
    ensures Bits(MAGIC32, c, b, 8) == TableUpdate(c, b)
  {
    hide Bits, Steps, TableEntry, TableUpdate, Trailing, Shift, Half, Odd, Up, Down, Xor;
    var low := (c ^ b) & 0xff;
    UpdateParts(c, b);
    ByteAtOnce(MAGIC32, c, b);
    TableIsSteps(low, 8);
    SplitWord(c, b);
    UpTrails(Down(c));
    StepsPass(MAGIC32, low, Up(Down(c)), 8);
  }

  lemma {:induction false} UpdateIsBytes(c: bv32, buf: seq<octet>)
    ensures UpdateCrc(c, buf) == Bytes(MAGIC32, c, buf)
    decreases |buf|
  {
    hide Bits, TableUpdate;
    if buf != [] {
      TableByte(c, buf[0]);
      UpdateIsBytes(Bits(MAGIC32, c, buf[0], 8), buf[1..]);
    }
  }

  /** The 32-bit half of the key is the CRC-32 of the file. */
  lemma Crc32IsRfc1952(file: seq<octet>)
    ensures Crc32(file) == Rfc1952Crc(file)
  {
    hide Bytes, UpdateCrc;
    UpdateIsBytes(0xffff_ffff, file);
  }

  const NINE_DIGITS: seq<octet> := [0x31, 0x32, 0x33, 0x34, 0x35, 0x36, 0x37, 0x38, 0x39]

  /** The 16-bit half is CRC-16/ARC: reflected polynomial 0xa001, register 0 at the start, no final
      inversion.  Its check value is that of the digits 1 to 9. */
  lemma Crc16IsArc()
    ensures Crc16([]) == 0 && Crc16([0x80]) == 0xa001 && Crc16(NINE_DIGITS) == 0xbb3d
  {
    hide Bytes, Eight;
    EightOf80();
    NextByte(0, [0x80], 0);
    assert [0x80 as octet][0..] == [0x80] && [0x80 as octet][1..] == [];
    NoBytes(0);
    NoBytes(0xa001);
    FiveDigits(NINE_DIGITS);
    FourDigits(NINE_DIGITS);
    assert NINE_DIGITS[0..] == NINE_DIGITS;
  }

  lemma FiveDigits(s: seq<octet>)
    requires |s| == 9 && s[0] == 0x31 && s[1] == 0x32 && s[2] == 0x33 && s[3] == 0x34 && s[4] == 0x35
    ensures Bytes(MAGIC16, 0, s[0..]) == Bytes(MAGIC16, 0xa455, s[5..])
  {
    hide Bytes, Eight;
    Digits();
    NextByte(0x0, s, 0);
    NextByte(0xd4c1, s, 1);
    NextByte(0x4594, s, 2);
    NextByte(0xba04, s, 3);
    NextByte(0x14ba, s, 4);
  }

  lemma FourDigits(s: seq<octet>)
    requires |s| == 9 && s[5] == 0x36 && s[6] == 0x37 && s[7] == 0x38 && s[8] == 0x39
    ensures Bytes(MAGIC16, 0xa455, s[5..]) == 0xbb3d
  {
    hide Bytes, Eight;
    Digits();
    NextByte(0xa455, s, 5);
    NextByte(0x29e4, s, 6);
    NextByte(0x9d68, s, 7);
    NextByte(0x3c9d, s, 8);
    NoBytes(0xbb3d);
    assert s[9..] == [];
  }

  lemma NoBytes(c: bv32)
    ensures Bytes(MAGIC16, c, []) == c
  {
  }

  lemma EightOf80()
    ensures Eight(0, 0x80) == 0xa001
  {
  }

  lemma Digits()
    ensures Eight(0x0, 0x31) == 0xd4c1 && Eight(0xd4c1, 0x32) == 0x4594 && Eight(0x4594, 0x33) == 0xba04 && Eight(0xba04, 0x34) == 0x14ba && Eight(0x14ba, 0x35) == 0xa455
    ensures Eight(0xa455, 0x36) == 0x29e4 && Eight(0x29e4, 0x37) == 0x9d68 && Eight(0x9d68, 0x38) == 0x3c9d && Eight(0x3c9d, 0x39) == 0xbb3d
  {
  }

  lemma NextByte(c: bv32, s: seq<octet>, k: nat)
    requires k < |s|
    ensures Bytes(MAGIC16, c, s[k..]) == Bytes(MAGIC16, Eight(c, s[k]), s[k + 1..])
  {
    hide Bits, Eight;
    OneByte(c, s[k]);
    assert s[k..][1..] == s[k + 1..];
  }

  function Eight(c: bv32, b: octet): bv32 {
    var c1 := Bit(MAGIC16, c, b);
    var c2 := Bit(MAGIC16, c1, b >> 1);
    var c3 := Bit(MAGIC16, c2, b >> 2);
    var c4 := Bit(MAGIC16, c3, b >> 3);
    var c5 := Bit(MAGIC16, c4, b >> 4);
    var c6 := Bit(MAGIC16, c5, b >> 5);
    var c7 := Bit(MAGIC16, c6, b >> 6);
    Bit(MAGIC16, c7, b >> 7)
  }

  lemma OneByte(c: bv32, b: octet)
    ensures Bits(MAGIC16, c, b, 8) == Eight(c, b)
  {
    hide Bit;
    assert Half(b) == b >> 1 && Half(b >> 1) == b >> 2 && Half(b >> 2) == b >> 3 && Half(b >> 3) == b >> 4;
    assert Half(b >> 4) == b >> 5 && Half(b >> 5) == b >> 6 && Half(b >> 6) == b >> 7;
  }
}
