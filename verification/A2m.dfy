/** The channels of the Adlib Tracker II player that slides work on (src/a2m-v2.cpp), with four-operator
    pairs and the frequency registers. */
module A2m {
  import opened Bits
  import opened Machine
  import opened A2mSlide

  const CHANNELS: nat := 20

  /** The first and the second channel of the pairs that can play with four operators. */
  predicate IsHi(c: nat) { c == 0 || c == 2 || c == 4 || c == 9 || c == 11 || c == 13 }
  predicate IsLo(c: nat) { c == 1 || c == 3 || c == 5 || c == 10 || c == 12 || c == 14 }

  /** The bit of the track extension flags for a channel of a pair. */
  function PairBit(c: nat): nat
    requires IsHi(c) || IsLo(c)
  {
    if c < 2 then 1 else if c < 4 then 2 else if c < 6 then 4 else if c < 11 then 8 else if c < 13 then 16 else 32
  }

  predicate Is4Op(flags: byte, c: nat) {
    (IsHi(c) || IsLo(c)) && flags / PairBit(c) % 2 == 1
  }

  /** The channel played together with `c`, or `c` itself. */
  function Partner(flags: byte, c: nat): (p: nat)
    requires c < CHANNELS
    ensures p < CHANNELS
  {
    if !Is4Op(flags, c) then c else if IsHi(c) then c + 1 else c - 1
  }

  lemma PartnersMatch(flags: byte, c: nat)
    requires c < CHANNELS
    ensures Partner(flags, Partner(flags, c)) == c
    ensures Partner(flags, c) != c <==> Is4Op(flags, c)
    ensures Is4Op(flags, Partner(flags, c)) == Is4Op(flags, c)
  {
  }

  function RegOffs(percussion: bool, c: nat): (n: nat)
    requires c < CHANNELS
    ensures n < 0x110
  {
    if percussion then
      [0x003, 0x000, 0x004, 0x001, 0x005, 0x002, 0x106, 0x107, 0x108, 0x103,
       0x100, 0x104, 0x101, 0x105, 0x102, 0x006, 0x007, 0x008, 0x008, 0x007][c]
    else
      [0x003, 0x000, 0x004, 0x001, 0x005, 0x002, 0x006, 0x007, 0x008, 0x103,
       0x100, 0x104, 0x101, 0x105, 0x102, 0x106, 0x107, 0x108, 0x0FF, 0x0FF][c]
  }

  /** With or without percussion the first 18 channels have the 18 register offsets of the chip, each its own,
      and the second channel of a pair lies three below the first. */
  lemma OffsetsOnChip(percussion: bool, c: nat, d: nat)
    requires c < d < 18
    ensures RegOffs(percussion, c) % 0x100 < 9 && RegOffs(percussion, c) != RegOffs(percussion, d)
    ensures IsHi(c) ==> RegOffs(percussion, c) == RegOffs(percussion, c + 1) + 3 && RegOffs(percussion, c + 1) % 0x100 < 3
  {
    hide RegOffs;
    if percussion { PercussionOffsets(c, d); } else { PlainOffsets(c, d); }
  }

  lemma PlainOffsets(c: nat, d: nat)
    requires c < d < 18
    ensures RegOffs(false, c) % 0x100 < 9 && RegOffs(false, c) != RegOffs(false, d)
    ensures IsHi(c) ==> RegOffs(false, c) == RegOffs(false, c + 1) + 3 && RegOffs(false, c + 1) % 0x100 < 3
  {
  }

  lemma PercussionOffsets(c: nat, d: nat)
    requires c < d < 18
    ensures RegOffs(true, c) % 0x100 < 9 && RegOffs(true, c) != RegOffs(true, d)
    ensures IsHi(c) ==> RegOffs(true, c) == RegOffs(true, c + 1) + 3 && RegOffs(true, c + 1) % 0x100 < 3
  {
  }

  datatype Porta = Porta(freq: uint16, speed: byte)
  datatype Vib = Vib(count: byte, pos: byte, freq: uint16, paused: bool)

  /** Both channels of a pair get the word that the addressed one keeps its upper bits in. */
  function WithFreq(freqs: seq<uint16>, flags: byte, c: nat, freq: uint16): (r: seq<uint16>)
    requires |freqs| == CHANNELS && c < CHANNELS
    ensures |r| == CHANNELS
  {
    freqs[c := Kept(freqs[c], freq)][Partner(flags, c) := Kept(freqs[c], freq)]
  }

  /** The registers are those of the second channel of a pair. */
  function WithRegs(regs: seq<byte>, flags: byte, percussion: bool, c: nat, w: uint16): (r: seq<byte>)
    requires |regs| == 0x200 && c < CHANNELS
    ensures |r| == 0x200
  {
    var n := RegOffs(percussion, if Is4Op(flags, c) && IsHi(c) then c + 1 else c);
    regs[0xA0 + n := w % 0x100][0xB0 + n := w / 0x100]
  }

  class Player {
    const freqTable: array<uint16>
    const portaTable: array2<Porta>      // per effect slot and channel
    const vib: array<Vib>
    const regs: array<byte>              // both chips
    var flag4op: byte
    var percussion: bool

    ghost predicate Valid()
      reads this
    {
      && freqTable.Length == CHANNELS && vib.Length == CHANNELS && regs.Length == 0x200
      && portaTable.Length0 == 2 && portaTable.Length1 == CHANNELS
    }

    constructor ()
      ensures Valid() && fresh(freqTable) && fresh(portaTable) && fresh(vib) && fresh(regs)
    {
      freqTable := new uint16[CHANNELS](_ => 0);
      portaTable := new Porta[2, CHANNELS]((_, _) => Porta(0, 0));
      vib := new Vib[CHANNELS](_ => Vib(0, 0, 0, false));
      regs := new byte[0x200](_ => 0);
      flag4op, percussion := 0, false;
    }

    method Opl3Out(reg: nat, data: byte)
      requires Valid() && reg < 0x200
      modifies regs
      ensures regs[..] == old(regs[..])[reg := data]
    {
      regs[reg] := data;
    }

    method ChangeFreq(chan0: nat, freq: uint16)
      requires Valid() && chan0 < CHANNELS
      modifies freqTable, regs
      ensures freqTable[..] == WithFreq(old(freqTable[..]), flag4op, chan0, freq)
      ensures regs[..] == WithRegs(old(regs[..]), flag4op, percussion, chan0, freqTable[chan0])
    {
      hide Kept;
      var chan := chan0;
      if Is4Op(flag4op, chan) && IsHi(chan) {
        freqTable[chan + 1] := freqTable[chan];
        chan := chan + 1;
      }
      PartnersMatch(flag4op, chan0);
      assert freqTable[chan] == old(freqTable[chan0]);
      freqTable[chan] := Kept(freqTable[chan], freq);
      var n := RegOffs(percussion, chan);
      Opl3Out(0xA0 + n, freqTable[chan] % 0x100);
      Opl3Out(0xB0 + n, freqTable[chan] / 0x100);
      if Is4Op(flag4op, chan) && IsLo(chan) {
        freqTable[chan - 1] := freqTable[chan];
      }
    }

    /** Also restarts the vibrato of the channel, and of its partner. */
    method ChangeFrequency(chan: nat, freq: uint16)
      requires Valid() && chan < CHANNELS
      modifies freqTable, regs, vib
      ensures freqTable[..] == WithFreq(old(freqTable[..]), flag4op, chan, freq)
      ensures regs[..] == WithRegs(old(regs[..]), flag4op, percussion, chan, freqTable[chan])
      ensures vib[..] == old(vib[..])[Partner(flag4op, chan) := Vib(1, 0, freq, false)][chan := Vib(1, 0, freq, false)]
    {
      hide Kept, RegOffs;
      vib[chan] := vib[chan].(paused := true);
      ChangeFreq(chan, freq);
      if Is4Op(flag4op, chan) {
        var i := if IsHi(chan) then 1 else -1;
        vib[chan + i] := Vib(1, 0, freq, false);
      }
      vib[chan] := Vib(1, 0, freq, false);
    }

    method PortamentoUp(chan: nat, slide: uint16, limit: uint16)
      requires Valid() && chan < CHANNELS
      modifies freqTable, regs, vib
      ensures var w := old(freqTable[chan]);
              freqTable[..] == if w % 0x2000 == 0 then old(freqTable[..])
                               else WithFreq(old(freqTable[..]), flag4op, chan, SlideUp(w % 0x2000, slide, limit))
      ensures old(freqTable[chan]) % 0x2000 == 0 ==> regs[..] == old(regs[..]) && vib[..] == old(vib[..])
      ensures old(freqTable[chan]) % 0x2000 != 0 ==> regs[..] == WithRegs(old(regs[..]), flag4op, percussion, chan, freqTable[chan])
    {
      hide ShiftUp, WithRegs;
      if freqTable[chan] % 0x2000 == 0 {
        return;
      }
      var freq := ShiftUp(freqTable[chan] % 0x2000, slide);
      ChangeFrequency(chan, if freq <= limit then freq else limit);
    }

    method PortamentoDown(chan: nat, slide: uint16, limit: uint16)
      requires Valid() && chan < CHANNELS
      modifies freqTable, regs, vib
      ensures var w := old(freqTable[chan]);
              freqTable[..] == if w % 0x2000 == 0 then old(freqTable[..])
                               else WithFreq(old(freqTable[..]), flag4op, chan, SlideDown(w % 0x2000, slide, limit))
      ensures old(freqTable[chan]) % 0x2000 == 0 ==> regs[..] == old(regs[..]) && vib[..] == old(vib[..])
      ensures old(freqTable[chan]) % 0x2000 != 0 ==> regs[..] == WithRegs(old(regs[..]), flag4op, percussion, chan, freqTable[chan])
    {
      hide ShiftDown, WithRegs;
      if freqTable[chan] % 0x2000 == 0 {
        return;
      }
      var freq := ShiftDown(freqTable[chan] % 0x2000, slide);
      ChangeFrequency(chan, if freq >= limit then freq else limit);
    }

    /** One tick; channels other than the addressed one and its partner keep their frequencies. */
    method TonePortamento(slot: nat, chan: nat)
      requires Valid() && slot < 2 && chan < CHANNELS
      modifies freqTable, regs, vib
      ensures freqTable[chan] == Tone(old(freqTable[chan]), portaTable[slot, chan].freq, portaTable[slot, chan].speed)
      ensures forall c :: 0 <= c < CHANNELS && c != chan && c != Partner(flag4op, chan) ==> freqTable[c] == old(freqTable[c])
      ensures var freq := old(freqTable[chan]) % 0x2000;
              if freq == 0 || freq == portaTable[slot, chan].freq
              then freqTable[..] == old(freqTable[..]) && regs[..] == old(regs[..]) && vib[..] == old(vib[..])
              else freqTable[Partner(flag4op, chan)] == freqTable[chan]
                   && regs[..] == WithRegs(old(regs[..]), flag4op, percussion, chan, freqTable[chan])
    {
      hide ShiftUp, ShiftDown, WithRegs;
      var freq := freqTable[chan] % 0x2000;
      var portafreq := portaTable[slot, chan].freq;
      ghost var was := freqTable[..];
      if freq > portafreq {
        PortamentoDown(chan, portaTable[slot, chan].speed, portafreq);
      } else if freq < portafreq {
        PortamentoUp(chan, portaTable[slot, chan].speed, portafreq);
      }
      assert freqTable[chan] == freqTable[..][chan] && was[chan] == old(freqTable[chan]);
      assert forall c :: 0 <= c < CHANNELS ==> freqTable[c] == freqTable[..][c] && was[c] == old(freqTable[c]);
    }
  }
}
