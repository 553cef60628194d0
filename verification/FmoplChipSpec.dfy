/** The 18 operators of a YM3812 with their registers (src/fmopl.c): register writes, samples and the
    reset, as far as the envelopes and the total levels go. */
module FmoplChipSpec {
  import opened Bits
  import opened Machine
  import opened FmoplSpec

  const CHANNELS: nat := 9
  const SLOTS: nat := 18
  const RHYTHM: nat := 0xBD

  /** Steps by rate and key scaling, computed in floating point from the sample rate, and attenuation
      by block and the upper bits of the f-number. */
  datatype Tables = Tables(attack: (nat, nat) -> rate, decay: (nat, nat) -> rate, ksl: nat -> nat)

  /** An operator: its envelope, and the registers that the envelope and the level depend on. */
  datatype Operator = Operator(env: Env, ar: nat, dr: nat, rr: nat, ksrShift: nat, ksr: nat, ams: bool, tl: nat, ksl: nat, tll: nat)

  // A rate of zero stands still, whatever the scaling; the release has no such exception.

  function AttackStep(t: Tables, o: Operator): rate {
    if o.ar == 0 then 0 else t.attack(o.ar, o.ksr)
  }

  function DecayStep(t: Tables, o: Operator): rate {
    if o.dr == 0 then 0 else t.decay(o.dr, o.ksr)
  }

  function ReleaseStep(t: Tables, o: Operator): rate {
    t.decay(o.rr, o.ksr)
  }

  /** TLL: the total level with the key scaling of the channel. */
  function TotalLevel(t: Tables, tl: nat, ksl: nat, fnum: nat): nat {
    tl + ShiftRight(t.ksl(fnum / 64), ksl)
  }

  /** The steps are those of the rates and the key scaling, and the total level is up to date. */
  predicate OperatorOk(t: Tables, o: Operator, fnum: nat) {
    && InRange(o.env)
    && o.env.evsa == AttackStep(t, o) && o.env.evsd == DecayStep(t, o) && o.env.evsr == ReleaseStep(t, o)
    && o.tll == TotalLevel(t, o.tl, o.ksl, fnum)
  }

  function On(o: Operator, ev: Event): (o': Operator)
    requires InRange(o.env) && Legal(ev)
    ensures InRange(o'.env) && o' == o.(env := o'.env)
  {
    o.(env := Step(o.env, ev))
  }

  /** What OPL_CALC_SLOT returns: total level, envelope curve and tremolo. */
  function LevelOf(o: Operator, curve: seq<int32>, lfo: int32): uint32
    requires InRange(o.env) && |curve| == 2 * 4096 + 1
  {
    ToUint32(o.tll + curve[o.env.evc / 0x1_0000] + if o.ams then lfo else 0)
  }

  /** The key scaling of an operator at a block and f-number. */
  function KsrOf(ksrShift: nat, fnum: nat): nat {
    if ksrShift == 0 then fnum / 0x200 else fnum / 0x200 / 4
  }

  /** CALC_FCSLOT. */
  function Refreshed(t: Tables, o: Operator, fnum: nat): (o': Operator)
    requires InRange(o.env)
    ensures OperatorOk(t, o', fnum)
  {
    var o1 := o.(ksr := KsrOf(o.ksrShift, fnum), tll := TotalLevel(t, o.tl, o.ksl, fnum));
    On(o1, Scaling(AttackStep(t, o1), DecayStep(t, o1), ReleaseStep(t, o1)))
  }

  function WithMul(t: Tables, o: Operator, fnum: nat, v: byte): (o': Operator)
    requires InRange(o.env)
    ensures OperatorOk(t, o', fnum)
  {
    var o1 := On(o, Holding(v / 0x20 % 2 == 1));
    Refreshed(t, o1.(ksrShift := if v / 0x10 % 2 == 1 then 0 else 2, ams := v / 0x80 == 1), fnum)
  }

  function KslShift(bits: nat): nat {
    if 0 < bits <= 3 then 3 - bits else 31
  }

  function WithKslTl(t: Tables, o: Operator, fnum: nat, v: byte): (o': Operator)
    requires OperatorOk(t, o, fnum)
    ensures OperatorOk(t, o', fnum)
  {
    hide TotalLevel;
    var ksl, tl: nat := KslShift(v / 0x40), v % 0x40 * 32;
    o.(ksl := ksl, tl := tl, tll := TotalLevel(t, tl, ksl, fnum))
  }

  function WithArDr(t: Tables, o: Operator, fnum: nat, v: byte): (o': Operator)
    requires OperatorOk(t, o, fnum)
    ensures OperatorOk(t, o', fnum)
  {
    var o1 := o.(ar := v / 0x10, dr := v % 0x10);
    On(o1, AttackDecay(AttackStep(t, o1), DecayStep(t, o1)))
  }

  function WithSlRr(t: Tables, o: Operator, fnum: nat, v: byte): (o': Operator)
    requires OperatorOk(t, o, fnum)
    ensures OperatorOk(t, o', fnum)
  {
    var o1 := o.(rr := v % 0x10);
    On(o1, SustainRelease(SlTable(v / 0x10), ReleaseStep(t, o1)))
  }

  lemma OnKeepsOk(t: Tables, o: Operator, fnum: nat, ev: Event)
    requires OperatorOk(t, o, fnum) && ev in {KeyOn, KeyOff, Sample, ForcedOff}
    ensures OperatorOk(t, On(o, ev), fnum)
  {
  }

  /** The operators, the key-on flags and the block/f-numbers of the channels, and the rhythm register
      without its two upper bits. */
  datatype Chip = Chip(ops: seq<Operator>, keyon: seq<bool>, fnums: seq<nat>, rhythm: nat)

  predicate Shaped(c: Chip) {
    |c.ops| == SLOTS && |c.keyon| == |c.fnums| == CHANNELS && forall i :: 0 <= i < CHANNELS ==> c.fnums[i] < 0x2000
  }

  predicate ChipOk(t: Tables, c: Chip) {
    Shaped(c) && forall s :: 0 <= s < SLOTS ==> OperatorOk(t, c.ops[s], c.fnums[s / 2])
  }

  /** The operator that a register offset belongs to, -1 for none. */
  const SLOT_ARRAY: seq<int> := [
    0, 2, 4, 1, 3, 5, -1, -1,
    6, 8, 10, 7, 9, 11, -1, -1,
    12, 14, 16, 13, 15, 17, -1, -1,
    -1, -1, -1, -1, -1, -1, -1, -1]

  function SlotAt(x: nat): (s: int)
    requires x < 0x20
    ensures -1 <= s < SLOTS
  {
    SLOT_ARRAY[x]
  }

  function OffsetOf(s: nat): (x: nat)
    requires s < SLOTS
    ensures x < 0x20 && SlotAt(x) == s
  {
    [0, 3, 1, 4, 2, 5, 8, 11, 9, 12, 10, 13, 16, 19, 17, 20, 18, 21][s]
  }

  /** A write to one of the operator registers. */
  function Written(t: Tables, o: Operator, fnum: nat, r: nat, v: byte): (o': Operator)
    requires OperatorOk(t, o, fnum)
    ensures OperatorOk(t, o', fnum)
  {
    if r / 0x20 == 1 then WithMul(t, o, fnum, v)
    else if r / 0x20 == 2 then WithKslTl(t, o, fnum, v)
    else if r / 0x20 == 3 then WithArDr(t, o, fnum, v)
    else if r / 0x20 == 4 then WithSlRr(t, o, fnum, v)
    else o
  }

  /** The bit of the rhythm register that keys an operator of the channels 6 to 8. */
  function DrumBit(s: nat): (b: nat)
    requires 12 <= s < SLOTS
    ensures b in {1, 2, 4, 8, 16}
  {
    if s < 14 then 0x10 else if s == 14 then 0x01 else if s == 15 then 0x08 else if s == 16 then 0x04 else 0x02
  }

  function HasBit(v: nat, b: nat): bool
    requires b > 0
  {
    v / b % 2 == 1
  }

  /** The rhythm register keys the drums whose bits change, in rhythm mode only. */
  function Drummed(o: Operator, s: nat, before: nat, v: byte): (o': Operator)
    requires InRange(o.env)
    ensures InRange(o'.env)
  {
    if s < 12 || s >= SLOTS || !HasBit(v, 0x20) || HasBit(before, DrumBit(s)) == HasBit(v, DrumBit(s)) then o
    else On(o, if HasBit(v, DrumBit(s)) then KeyOn else KeyOff)
  }

  /** Key and block of a channel, or its f-number. */
  function Keyed(o: Operator, was: bool, now: bool): (o': Operator)
    requires InRange(o.env)
    ensures InRange(o'.env)
  {
    if was == now then o else On(o, if now then KeyOn else KeyOff)
  }

  function KeyAfter(c: Chip, r: nat, v: byte, ch: nat): bool
    requires Shaped(c) && ch < CHANNELS
  {
    if r == 0xB0 + ch then HasBit(v, 0x20) else c.keyon[ch]
  }

  function FnumAfter(c: Chip, r: nat, v: byte, ch: nat): (f: nat)
    requires Shaped(c) && ch < CHANNELS
    ensures f < 0x2000
  {
    if r == 0xA0 + ch then c.fnums[ch] / 0x100 % 0x20 * 0x100 + v
    else if r == 0xB0 + ch then v % 0x20 * 0x100 + c.fnums[ch] % 0x100
    else c.fnums[ch]
  }

  /** An operator after a write to any register. */
  function OpAfter(t: Tables, c: Chip, r: nat, v: byte, s: nat): (o: Operator)
    requires ChipOk(t, c) && s < SLOTS && r < 0x100
    ensures OperatorOk(t, o, FnumAfter(c, r, v, s / 2))
  {
    var o, fnum := c.ops[s], c.fnums[s / 2];
    if r == RHYTHM then
      if s >= 12 then OnKeepsOk(t, o, fnum, KeyOn); OnKeepsOk(t, o, fnum, KeyOff); Drummed(o, s, c.rhythm, v) else o
    else if r / 0x20 == 5 then
      OnKeepsOk(t, o, fnum, KeyOn);
      OnKeepsOk(t, o, fnum, KeyOff);
      var o1 := Keyed(o, c.keyon[s / 2], KeyAfter(c, r, v, s / 2));
      if FnumAfter(c, r, v, s / 2) == fnum then o1 else Refreshed(t, o1, FnumAfter(c, r, v, s / 2))
    else if SlotAt(r % 0x20) == s then Written(t, o, fnum, r, v)
    else o
  }

  /** OPLWriteReg. */
  function Write(t: Tables, c: Chip, r: nat, v: byte): (c': Chip)
    requires ChipOk(t, c) && r < 0x100
    ensures ChipOk(t, c')
  {
    Chip(seq(SLOTS, s requires 0 <= s < SLOTS => OpAfter(t, c, r, v, s)),
         seq(CHANNELS, ch requires 0 <= ch < CHANNELS => KeyAfter(c, r, v, ch)),
         seq(CHANNELS, ch requires 0 <= ch < CHANNELS => FnumAfter(c, r, v, ch)),
         if r == RHYTHM then v % 0x40 else c.rhythm)
  }

  /** The same for all operators. */
  function AllOn(t: Tables, c: Chip, ev: Event): (c': Chip)
    requires ChipOk(t, c) && ev in {Sample, ForcedOff}
    ensures ChipOk(t, c')
  {
    AllOnOk(t, c, ev);
    c.(ops := seq(SLOTS, s requires 0 <= s < SLOTS => On(c.ops[s], ev)))
  }

  lemma AllOnOk(t: Tables, c: Chip, ev: Event)
    requires ChipOk(t, c) && ev in {Sample, ForcedOff}
    ensures forall s :: 0 <= s < SLOTS ==> OperatorOk(t, On(c.ops[s], ev), c.fnums[s / 2])
  {
    forall s | 0 <= s < SLOTS
      ensures OperatorOk(t, On(c.ops[s], ev), c.fnums[s / 2])
    {
      OnKeepsOk(t, c.ops[s], c.fnums[s / 2], ev);
    }
  }

  /** Zeros written to the registers below `r`, downwards to 0x20. */
  function Zeroed(t: Tables, c: Chip, r: nat): (c': Chip)
    requires ChipOk(t, c) && r <= 0x100
    ensures ChipOk(t, c')
    decreases r
  {
    if r <= 0x20 then c else Zeroed(t, Write(t, c, r - 1, 0), r - 1)
  }

  /** OPLResetChip: zeros to all registers, then all counters forced off. */
  function ResetChip(t: Tables, c: Chip): (c': Chip)
    requires ChipOk(t, c)
    ensures ChipOk(t, c')
  {
    AllOn(t, Zeroed(t, c, 0x100), ForcedOff)
  }

  datatype ChipEvent = WriteReg(r: nat, v: byte) | Update | Reset

  predicate Legal1(ev: ChipEvent) {
    ev.WriteReg? ==> ev.r < 0x100
  }

  function ChipStep(t: Tables, c: Chip, ev: ChipEvent): (c': Chip)
    requires ChipOk(t, c) && Legal1(ev)
    ensures ChipOk(t, c')
  {
    match ev
    case WriteReg(r, v) => Write(t, c, r, v)
    case Update => AllOn(t, c, Sample)
    case Reset => ResetChip(t, c)
  }

  function ChipRun(t: Tables, c: Chip, evs: seq<ChipEvent>): (c': Chip)
    requires ChipOk(t, c) && forall i :: 0 <= i < |evs| ==> Legal1(evs[i])
    ensures ChipOk(t, c')
    decreases |evs|
  {
    if evs == [] then c else ChipRun(t, ChipStep(t, c, evs[0]), evs[1..])
  }
}
