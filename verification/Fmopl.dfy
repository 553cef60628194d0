/** The YM3812 emulator of src/fmopl.c: its operators, register writes and reset, in place, as far as
    the envelopes and the total levels go. */
module Fmopl {
  import opened Bits
  import opened Machine
  import opened FmoplSpec
  import opened FmoplCurve
  import opened FmoplChipSpec
  import opened FmoplReset

  class Slot {
    const tables: Tables
    var ar: nat
    var dr: nat
    var rr: nat
    var ksrShift: nat        // KSR
    var ksr: nat
    var egTyp: bool
    var ams: bool
    var tl: nat
    var ksl: nat
    var tll: nat
    var sl: int32
    var cnt: nat
    var evm: Phase
    var evc: int32
    var eve: int32
    var evs: rate
    var evsa: rate
    var evsd: rate
    var evsr: rate

    ghost function State(): Env
      reads this
    {
      Env(evm, evc, eve, evs, evsa, evsd, evsr, sl, egTyp)
    }

    ghost function Op(): Operator
      reads this
    {
      Operator(State(), ar, dr, rr, ksrShift, ksr, ams, tl, ksl, tll)
    }

    function AR(): rate
      reads this`ar, this`ksr
    {
      if ar == 0 then 0 else tables.attack(ar, ksr)
    }

    function DR(): rate
      reads this`dr, this`ksr
    {
      if dr == 0 then 0 else tables.decay(dr, ksr)
    }

    function RR(): rate
      reads this`rr, this`ksr
    {
      tables.decay(rr, ksr)
    }

    ghost predicate Valid(fnum: nat)
      reads this
    {
      OperatorOk(tables, Op(), fnum)
    }

    /** As a reset leaves it. */
    constructor (tables: Tables)
      ensures this.tables == tables && Valid(0) && IsOff(State())
    {
      this.tables := tables;
      ar, dr, rr, ksrShift, ksr, egTyp, ams, tl, ksl, sl, cnt := 0, 0, 0, 2, 0, false, false, 0, 31, SlTable(0), 0;
      evm, evc, eve, evs := Release, EG_OFF, EG_OFF + 1, 0;
      evsa, evsd, evsr := 0, 0, tables.decay(0, 0);
      tll := ShiftRight(tables.ksl(0), 31);
    }

    method KeyOn()
      requires InRange(State())
      modifies this`cnt, this`evm, this`evc, this`eve, this`evs
      ensures Op() == On(old(Op()), FmoplSpec.KeyOn) && cnt == 0
    {
      cnt := 0;
      evm := Attack;
      evs := evsa;
      evc := EG_AST;
      eve := EG_AED;
    }

    method KeyOff()
      requires InRange(State())
      modifies this`evm, this`evc, this`eve, this`evs
      ensures Op() == On(old(Op()), FmoplSpec.KeyOff)
    {
      if evm != Release {
        evm := Release;
        if evc / EG_DST % 2 == 0 {
          evc := EG_DST;
        }
        eve := EG_DED;
        evs := evsr;
      }
    }

    /** One sample: the attenuation by total level, envelope curve (which any counter in range can
        index) and tremolo. */
    method CalcSlot(curve: seq<int32>, lfo: int32) returns (level: uint32)
      requires InRange(State()) && |curve| == 2 * 4096 + 1
      modifies this`evm, this`evc, this`eve, this`evs
      ensures Op() == On(old(Op()), Sample)
      ensures level == LevelOf(Op(), curve, lfo)
    {
      evc := evc + evs;
      if evc >= eve {
        match evm {
          case Attack =>
            evm := Decay;
            evc := EG_DST;
            eve := sl;
            evs := evsd;
          case Decay =>
            evc := sl;
            eve := EG_DED;
            if egTyp {
              evs := 0;
            } else {
              evm := Release;
              evs := evsr;
            }
          case Release =>
            evc := EG_OFF;
            eve := EG_OFF + 1;
            evs := 0;
        }
      }
      level := ToUint32(tll + curve[evc / 0x1_0000] + if ams then lfo else 0);
    }

    /** Sets the rates again if the key scaling has changed, and the total level. */
    method CalcFcSlot(fnum: nat, ghost was: nat)
      requires Valid(was)
      modifies this`ksr, this`evsa, this`evsd, this`evsr, this`tll
      ensures Op() == Refreshed(tables, old(Op()), fnum)
    {
      hide ShiftRight;
      var ksr := KsrOf(ksrShift, fnum);
      if this.ksr != ksr {
        this.ksr := ksr;
        evsa := AR();
        evsd := DR();
        evsr := RR();
      }
      tll := tl + ShiftRight(tables.ksl(fnum / 64), ksl);
    }

    method SetMul(v: byte, fnum: nat)
      requires Valid(fnum)
      modifies this`ksrShift, this`egTyp, this`ams, this`ksr, this`evsa, this`evsd, this`evsr, this`tll
      ensures Op() == WithMul(tables, old(Op()), fnum, v)
    {
      hide TotalLevel;
      ksrShift := if v / 0x10 % 2 == 1 then 0 else 2;
      egTyp := v / 0x20 % 2 == 1;
      ams := v / 0x80 == 1;
      CalcFcSlot(fnum, fnum);
    }

    method SetKslTl(v: byte, fnum: nat)
      requires Valid(fnum)
      modifies this`ksl, this`tl, this`tll
      ensures Op() == WithKslTl(tables, old(Op()), fnum, v)
    {
      hide ShiftRight;
      ksl := KslShift(v / 0x40);
      tl := v % 0x40 * 32;
      tll := tl + ShiftRight(tables.ksl(fnum / 64), ksl);
    }

    method SetArDr(v: byte, ghost fnum: nat)
      requires Valid(fnum)
      modifies this`ar, this`dr, this`evs, this`evsa, this`evsd
      ensures Op() == WithArDr(tables, old(Op()), fnum, v)
    {
      hide TotalLevel;
      ar := v / 0x10;
      evsa := AR();
      if evm == Attack {
        evs := evsa;
      }
      dr := v % 0x10;
      evsd := DR();
      if evm == Decay {
        evs := evsd;
      }
    }

    method SetSlRr(v: byte, ghost fnum: nat)
      requires Valid(fnum)
      modifies this`sl, this`rr, this`eve, this`evs, this`evsr
      ensures Op() == WithSlRr(tables, old(Op()), fnum, v)
    {
      hide TotalLevel;
      sl := SlTable(v / 0x10);
      if evm == Decay {
        eve := sl;
      }
      rr := v % 0x10;
      evsr := RR();
      if evm == Release {
        evs := evsr;
      }
    }

    method ForceOff()
      requires InRange(State())
      modifies this`evc, this`eve, this`evs
      ensures Op() == On(old(Op()), ForcedOff)
    {
      evc := EG_OFF;
      eve := EG_OFF + 1;
      evs := 0;
    }
  }

  /** One operator changed. */
  lemma OneOp(t: Tables, a: Chip, b: Chip, s: nat)
    requires ChipOk(t, a) && s < SLOTS && |b.ops| == SLOTS
    requires b == a.(ops := b.ops) && (forall i :: 0 <= i < SLOTS && i != s ==> b.ops[i] == a.ops[i])
    ensures b == a.(ops := a.ops[s := b.ops[s]])
    ensures OperatorOk(t, b.ops[s], a.fnums[s / 2]) ==> ChipOk(t, b)
  {
    hide OperatorOk;
    assert b.ops == a.ops[s := b.ops[s]];
  }

  /** What makes a new state that of a write. */
  lemma IsWrite(t: Tables, a: Chip, b: Chip, r: nat, v: byte)
    requires ChipOk(t, a) && r < 0x100 && Shaped(b)
    requires forall s :: 0 <= s < SLOTS ==> b.ops[s] == OpAfter(t, a, r, v, s)
    requires forall ch :: 0 <= ch < CHANNELS ==> b.keyon[ch] == KeyAfter(a, r, v, ch) && b.fnums[ch] == FnumAfter(a, r, v, ch)
    requires b.rhythm == if r == RHYTHM then v % 0x40 else a.rhythm
    ensures b == Write(t, a, r, v)
  {
    hide OpAfter, OperatorOk, KeyAfter, FnumAfter;
    var c := Write(t, a, r, v);
    assert b.ops == c.ops && b.keyon == c.keyon && b.fnums == c.fnums;
  }

  lemma SlotWrite(t: Tables, a: Chip, r: nat, v: byte, s: nat)
    requires ChipOk(t, a) && r < 0x100 && s < SLOTS && r / 0x20 != 5
    ensures OpAfter(t, a, r, v, s) == if SlotAt(r % 0x20) == s then Written(t, a.ops[s], a.fnums[s / 2], r, v) else a.ops[s]
    ensures forall ch :: 0 <= ch < CHANNELS ==> KeyAfter(a, r, v, ch) == a.keyon[ch] && FnumAfter(a, r, v, ch) == a.fnums[ch]
  {
    hide Written, OperatorOk;
  }

  lemma KeysKeepOk(t: Tables, a: Chip, s: nat)
    requires ChipOk(t, a) && s < SLOTS
    ensures var o, fnum := a.ops[s], a.fnums[s / 2];
            OperatorOk(t, o, fnum) && InRange(o.env)
            && OperatorOk(t, On(o, KeyOn), fnum) && OperatorOk(t, On(o, KeyOff), fnum)
  {
    OnKeepsOk(t, a.ops[s], a.fnums[s / 2], KeyOn);
    OnKeepsOk(t, a.ops[s], a.fnums[s / 2], KeyOff);
  }

  lemma AllNew(t: Tables, c: Chip)
    requires Shaped(c) && forall s :: 0 <= s < SLOTS ==> OperatorOk(t, c.ops[s], c.fnums[s / 2]) && IsOff(c.ops[s].env)
    ensures ChipOk(t, c) && AllOff(c) && NoStrays(c)
  {
    hide OperatorOk;
  }

  lemma KeysDontMatter(t: Tables, a: Chip, keyon: seq<bool>)
    requires ChipOk(t, a) && |keyon| == CHANNELS
    ensures ChipOk(t, a.(keyon := keyon))
  {
    hide OperatorOk;
  }

  lemma InOrder(t: Tables, a: Chip)
    requires ChipOk(t, a)
    ensures Shaped(a) && forall s :: 0 <= s < SLOTS ==> InRange(a.ops[s].env)
  {
  }

  lemma BothRefreshed(t: Tables, a: seq<Operator>, b: seq<Operator>, ch: nat, fnum: nat)
    requires |a| == SLOTS && ch < CHANNELS && (forall s :: 0 <= s < SLOTS ==> InRange(a[s].env))
    requires b == a[2 * ch := Refreshed(t, a[2 * ch], fnum)][2 * ch + 1 := Refreshed(t, a[2 * ch + 1], fnum)]
    ensures forall s :: 0 <= s < SLOTS ==> b[s] == if s / 2 == ch then Refreshed(t, a[s], fnum) else a[s]
  {
    hide Refreshed;
  }

  lemma BothKeyed(a: seq<Operator>, b: seq<Operator>, ch: nat, was: bool, on: bool)
    requires |a| == SLOTS && ch < CHANNELS && was != on && (forall s :: 0 <= s < SLOTS ==> InRange(a[s].env))
    requires var ev := if on then KeyOn else KeyOff; b == a[2 * ch := On(a[2 * ch], ev)][2 * ch + 1 := On(a[2 * ch + 1], ev)]
    ensures forall s :: 0 <= s < SLOTS ==> b[s] == if s / 2 == ch then Keyed(a[s], was, on) else a[s]
  {
    hide On;
  }

  lemma NoneKeyed(a: seq<Operator>, ch: nat, on: bool)
    requires |a| == SLOTS && (forall s :: 0 <= s < SLOTS ==> InRange(a[s].env))
    ensures forall s :: 0 <= s < SLOTS ==> a[s] == if s / 2 == ch then Keyed(a[s], on, on) else a[s]
  {
    hide On;
  }

  lemma RefreshedOk(t: Tables, a: Chip, b: Chip, ch: nat, fnum: nat)
    requires ChipOk(t, a) && Shaped(b) && ch < CHANNELS && b.fnums == a.fnums[ch := fnum]
    requires forall s :: 0 <= s < SLOTS ==>
               && InRange(a.ops[s].env)
               && b.ops[s] == if s / 2 == ch && fnum != a.fnums[ch] then Refreshed(t, a.ops[s], fnum) else a.ops[s]
    ensures ChipOk(t, b)
  {
    hide OperatorOk, Refreshed;
    forall s | 0 <= s < SLOTS
      ensures OperatorOk(t, b.ops[s], b.fnums[s / 2])
    {
      assert OperatorOk(t, a.ops[s], a.fnums[s / 2]);
      RefreshedIsOk(t, a.ops[s], fnum);
    }
  }

  lemma RefreshedIsOk(t: Tables, o: Operator, fnum: nat)
    requires InRange(o.env)
    ensures OperatorOk(t, Refreshed(t, o, fnum), fnum)
  {
  }

  /** Keyed, then refreshed: a write to the registers of a channel. */
  lemma ChannelDone(t: Tables, a: Chip, b: Chip, r: nat, v: byte, ch: nat)
    requires ChipOk(t, a) && Shaped(b) && ch < CHANNELS && (r == 0xA0 + ch || r == 0xB0 + ch)
    requires b == a.(ops := b.ops, keyon := a.keyon[ch := KeyAfter(a, r, v, ch)], fnums := a.fnums[ch := FnumAfter(a, r, v, ch)])
    requires forall s :: 0 <= s < SLOTS ==>
               && InRange(a.ops[s].env)
               && b.ops[s] ==
                    if s / 2 != ch then a.ops[s]
                    else
                      var o := Keyed(a.ops[s], a.keyon[ch], KeyAfter(a, r, v, ch));
                      if FnumAfter(a, r, v, ch) == a.fnums[ch] then o else Refreshed(t, o, FnumAfter(a, r, v, ch))
    ensures b == Write(t, a, r, v)
  {
    hide OperatorOk, Refreshed, Keyed, OpAfter;
    forall s | 0 <= s < SLOTS
      ensures b.ops[s] == OpAfter(t, a, r, v, s)
    {
      ChannelWrite(t, a, r, v, s);
    }
    IsWrite(t, a, b, r, v);
  }

  lemma NotKeyed(o: Operator, on: bool)
    requires InRange(o.env)
    ensures Keyed(o, on, on) == o
  {
  }

  lemma NotDrummed(o: Operator, s: nat, before: nat, v: byte)
    requires InRange(o.env)
    ensures s < 12 || !HasBit(v, 0x20) ==> Drummed(o, s, before, v) == o
  {
  }

  lemma NoChannel(t: Tables, a: Chip, r: nat, v: byte)
    requires ChipOk(t, a) && r < 0x100 && r / 0x20 == 5 && r % 0x10 > 8 && r != RHYTHM
    ensures a == Write(t, a, r, v)
  {
    hide OpAfter, OperatorOk;
    forall s | 0 <= s < SLOTS
      ensures a.ops[s] == OpAfter(t, a, r, v, s)
    {
      ChannelWrite(t, a, r, v, s);
    }
    IsWrite(t, a, a, r, v);
  }

  lemma DrumWrite(t: Tables, a: Chip, v: byte, s: nat)
    requires ChipOk(t, a) && s < SLOTS
    ensures InRange(a.ops[s].env) && OpAfter(t, a, RHYTHM, v, s) == Drummed(a.ops[s], s, a.rhythm, v)
    ensures forall ch :: 0 <= ch < CHANNELS ==> KeyAfter(a, RHYTHM, v, ch) == a.keyon[ch] && FnumAfter(a, RHYTHM, v, ch) == a.fnums[ch]
  {
    hide On;
  }

  lemma IsAllOn(t: Tables, a: Chip, b: Chip, ev: Event)
    requires ChipOk(t, a) && ev in {Sample, ForcedOff} && |b.ops| == SLOTS && b == a.(ops := b.ops)
    requires forall s :: 0 <= s < SLOTS ==> InRange(a.ops[s].env) && b.ops[s] == On(a.ops[s], ev)
    ensures b == AllOn(t, a, ev) && ChipOk(t, b)
  {
    hide On, OperatorOk;
    assert b.ops == AllOn(t, a, ev).ops;
  }

  lemma ChannelWrite(t: Tables, a: Chip, r: nat, v: byte, s: nat)
    requires ChipOk(t, a) && r < 0x100 && s < SLOTS && r / 0x20 == 5 && r != RHYTHM
    ensures var ch, f := s / 2, FnumAfter(a, r, v, s / 2);
            OpAfter(t, a, r, v, s) ==
              var o := Keyed(a.ops[s], a.keyon[ch], KeyAfter(a, r, v, ch));
              if f == a.fnums[ch] then o else Refreshed(t, o, f)
    ensures r != 0xA0 + s / 2 && r != 0xB0 + s / 2 ==> OpAfter(t, a, r, v, s) == a.ops[s]
  {
    hide Refreshed, OperatorOk, On;
  }

  class FmOpl {
    const tables: Tables
    const slots: seq<Slot>          // two to a channel
    const keyon: array<bool>
    const blockFnum: array<nat>
    var rhythm: nat

    ghost predicate Shape() {
      && |slots| == SLOTS && (forall i, j :: 0 <= i < j < SLOTS ==> slots[i] != slots[j])
      && (forall i :: 0 <= i < SLOTS ==> slots[i].tables == tables)
      && keyon.Length == blockFnum.Length == CHANNELS
    }

    lemma Sizes()
      requires Shape()
      ensures |slots| == SLOTS && keyon.Length == blockFnum.Length == CHANNELS
    {
    }

    ghost function Ops(): (ops: seq<Operator>)
      reads slots
      requires |slots| == SLOTS
      ensures |ops| == SLOTS && forall i :: 0 <= i < SLOTS ==> ops[i] == slots[i].Op()
    {
      seq(SLOTS, i requires 0 <= i < SLOTS reads slots => slots[i].Op())
    }

    ghost function State(): Chip
      reads this, slots, keyon, blockFnum
      requires Shape()
    {
      Chip(Ops(), keyon[..], blockFnum[..], rhythm)
    }

    ghost predicate Valid()
      reads this, slots, keyon, blockFnum
    {
      Shape() && ChipOk(tables, State())
    }

    /** A write to a register of one operator. */
    method WriteSlot(s: nat, r: nat, v: byte)
      requires Valid() && s < SLOTS
      modifies slots
      ensures Valid() && Ops() == old(Ops())[s := Written(tables, old(Ops()[s]), blockFnum[s / 2], r, v)]
    {
      hide OperatorOk, WithMul, WithKslTl, WithArDr, WithSlRr;
      ghost var was := State();
      var slot, fnum := slots[s], blockFnum[s / 2];
      assert OperatorOk(tables, was.ops[s], fnum);
      if r / 0x20 == 1 {
        slot.SetMul(v, fnum);
      } else if r / 0x20 == 2 {
        slot.SetKslTl(v, fnum);
      } else if r / 0x20 == 3 {
        slot.SetArDr(v, fnum);
      } else if r / 0x20 == 4 {
        slot.SetSlRr(v, fnum);
      }
      OneOp(tables, was, State(), s);
    }

    /** Sets the key-on flag of a channel, which keys its operators if it changes. */
    method KeyChannel(ch: nat, on: bool)
      requires Valid() && ch < CHANNELS
      modifies slots, keyon
      ensures Valid() && keyon[..] == old(keyon[..])[ch := on]
      ensures forall s :: 0 <= s < SLOTS ==>
                Ops()[s] == if s / 2 == ch then Keyed(old(Ops()[s]), old(keyon[ch]), on) else old(Ops()[s])
    {
      hide OperatorOk, On, ChipOk, Shape, Keyed;
      Sizes();
      ghost var was := State();
      InOrder(tables, was);
      if keyon[ch] != on {
        SetKeyOn(ch, on);
        KeySlot(2 * ch, on);
        KeySlot(2 * ch + 1, on);
        BothKeyed(was.ops, Ops(), ch, was.keyon[ch], on);
      } else {
        NoneKeyed(was.ops, ch, on);
      }
    }

    method SetKeyOn(ch: nat, on: bool)
      requires Valid() && ch < CHANNELS
      modifies keyon
      ensures Valid() && keyon[..] == old(keyon[..])[ch := on] && Ops() == old(Ops())
    {
      hide OperatorOk, ChipOk, Shape;
      Sizes();
      ghost var was := State();
      KeysDontMatter(tables, was, was.keyon[ch := on]);
      keyon[ch] := on;
      assert State() == was.(keyon := was.keyon[ch := on]);
    }

    /** Sets block and f-number of a channel, which refreshes its operators if they change. */
    method RefreshChannel(ch: nat, fnum: nat)
      requires Valid() && ch < CHANNELS && fnum < 0x2000
      modifies slots, blockFnum
      ensures Valid() && blockFnum[..] == old(blockFnum[..])[ch := fnum]
      ensures forall s :: 0 <= s < SLOTS ==>
                Ops()[s] == if s / 2 == ch && fnum != old(blockFnum[ch]) then Refreshed(tables, old(Ops()[s]), fnum) else old(Ops()[s])
    {
      hide OperatorOk, Refreshed, ChipOk, Shape;
      Sizes();
      ghost var was := State();
      InOrder(tables, was);
      KeysKeepOk(tables, was, 2 * ch);
      KeysKeepOk(tables, was, 2 * ch + 1);
      if blockFnum[ch] != fnum {
        blockFnum[ch] := fnum;
        RefreshSlot(2 * ch, fnum, was.fnums[ch]);
        RefreshSlot(2 * ch + 1, fnum, was.fnums[ch]);
        BothRefreshed(tables, was.ops, Ops(), ch, fnum);
      }
      RefreshedOk(tables, was, State(), ch, fnum);
    }

    method RefreshSlot(s: nat, fnum: nat, ghost was: nat)
      requires Shape() && s < SLOTS && OperatorOk(tables, Ops()[s], was)
      modifies slots
      ensures InRange(old(Ops()[s]).env) && Ops() == old(Ops())[s := Refreshed(tables, old(Ops()[s]), fnum)]
    {
      hide Refreshed;
      slots[s].CalcFcSlot(fnum, was);
    }

    /** Key-on flag and block, or the f-number, of a channel. */
    method WriteChannel(ch: nat, r: nat, v: byte)
      requires Valid() && ch < CHANNELS && (r == 0xA0 + ch || r == 0xB0 + ch)
      modifies slots, keyon, blockFnum
      ensures Valid() && State() == Write(tables, old(State()), r, v)
    {
      hide OperatorOk, Refreshed, Keyed, OpAfter, ChipOk, Write, Shape;
      Sizes();
      ghost var was := State();
      InOrder(tables, was);
      if r == 0xA0 + ch {
        RefreshChannel(ch, blockFnum[ch] / 0x100 % 0x20 * 0x100 + v);
      } else {
        KeyChannel(ch, HasBit(v, 0x20));
        RefreshChannel(ch, v % 0x20 * 0x100 + blockFnum[ch] % 0x100);
      }
      forall s | 0 <= s < SLOTS
        ensures InRange(was.ops[s].env) && Keyed(was.ops[s], was.keyon[ch], was.keyon[ch]) == was.ops[s]
      {
        KeysKeepOk(tables, was, s);
        NotKeyed(was.ops[s], was.keyon[ch]);
      }
      ChannelDone(tables, was, State(), r, v, ch);
    }

    /** The rhythm register: keys the drums whose bits change. */
    method WriteRhythm(v: byte)
      requires Valid()
      modifies this`rhythm, slots
      ensures Valid() && State() == Write(tables, old(State()), RHYTHM, v)
    {
      hide OperatorOk, On, Drummed, HasBit;
      ghost var was := State();
      var before := rhythm;
      rhythm := v % 0x40;
      InOrder(tables, was);
      if HasBit(v, 0x20) {
        KeyDrums(before, v);
      }
      forall s | 0 <= s < SLOTS
        ensures State().ops[s] == OpAfter(tables, was, RHYTHM, v, s)
      {
        DrumWrite(tables, was, v, s);
        NotDrummed(was.ops[s], s, before, v);
      }
      DrumWrite(tables, was, v, 0);
      IsWrite(tables, was, State(), RHYTHM, v);
    }

    method KeyDrums(before: nat, v: byte)
      requires Valid() && HasBit(v, 0x20)
      modifies slots
      ensures Valid()
      ensures forall s :: 0 <= s < SLOTS ==>
                InRange(old(Ops()[s]).env) && Ops()[s] == if s < 12 then old(Ops()[s]) else Drummed(old(Ops()[s]), s, before, v)
    {
      hide OperatorOk, Drummed, HasBit, ChipOk, Shape;
      Sizes();
      InOrder(tables, State());
      KeyDrum(12, before, v);
      KeyDrum(13, before, v);
      KeyDrum(15, before, v);
      KeyDrum(16, before, v);
      KeyDrum(17, before, v);
      KeyDrum(14, before, v);
    }

    /** Keys one drum of the rhythm mode, if its bit changes. */
    method KeyDrum(s: nat, before: nat, v: byte)
      requires Valid() && 12 <= s < SLOTS && HasBit(v, 0x20)
      modifies slots
      ensures Valid() && InRange(old(Ops()[s]).env) && Ops() == old(Ops())[s := Drummed(old(Ops()[s]), s, before, v)]
    {
      hide OperatorOk, On;
      InOrder(tables, State());
      if HasBit(before, DrumBit(s)) != HasBit(v, DrumBit(s)) {
        KeySlot(s, HasBit(v, DrumBit(s)));
      }
    }

    method KeySlot(s: nat, on: bool)
      requires Valid() && s < SLOTS
      modifies slots
      ensures Valid() && Ops() == old(Ops())[s := On(old(Ops()[s]), if on then KeyOn else KeyOff)]
    {
      hide OperatorOk, On;
      ghost var was := State();
      KeysKeepOk(tables, was, s);
      if on {
        slots[s].KeyOn();
      } else {
        slots[s].KeyOff();
      }
      OneOp(tables, was, State(), s);
    }

    /** OPLWriteReg. */
    method WriteReg(r: nat, v: byte)
      requires Valid() && r < 0x100
      modifies this`rhythm, slots, keyon, blockFnum
      ensures Valid() && State() == Write(tables, old(State()), r, v)
    {
      hide OperatorOk, OpAfter, Written, Write;
      ghost var was := State();
      if r == RHYTHM {
        WriteRhythm(v);
      } else if r / 0x20 == 5 {
        if r % 0x10 > 8 {
          NoChannel(tables, was, r, v);
          return;
        }
        WriteChannel(r % 0x10, r, v);
      } else {
        var s := SlotAt(r % 0x20);
        if s != -1 {
          WriteSlot(s, r, v);
        }
        forall i | 0 <= i < SLOTS
          ensures State().ops[i] == OpAfter(tables, was, r, v, i)
        {
          SlotWrite(tables, was, r, v, i);
        }
        SlotWrite(tables, was, r, v, 0);
        IsWrite(tables, was, State(), r, v);
      }
    }

    /** A sample of all operators: their levels. */
    method Update(curve: seq<int32>, lfo: int32) returns (levels: seq<uint32>)
      requires Valid() && |curve| == 2 * 4096 + 1
      modifies slots
      ensures Valid() && State() == AllOn(tables, old(State()), Sample) && |levels| == SLOTS
      ensures forall s :: 0 <= s < SLOTS ==> InRange(Ops()[s].env) && levels[s] == LevelOf(Ops()[s], curve, lfo)
    {
      hide OperatorOk, On, LevelOf;
      ghost var was := State();
      InOrder(tables, was);
      levels := [];
      for s := 0 to SLOTS
        invariant |levels| == s && keyon[..] == was.keyon && blockFnum[..] == was.fnums
        invariant forall i :: 0 <= i < SLOTS ==> slots[i].Op() == if i < s then On(was.ops[i], Sample) else was.ops[i]
        invariant forall i :: 0 <= i < s ==> levels[i] == LevelOf(On(was.ops[i], Sample), curve, lfo)
      {
        var level := slots[s].CalcSlot(curve, lfo);
        levels := levels + [level];
      }
      IsAllOn(tables, was, State(), Sample);
    }

    /** Zeros to all registers from 0xFF down to 0x20. */
    method ZeroAll()
      requires Valid()
      modifies this`rhythm, slots, keyon, blockFnum
      ensures Valid() && State() == Zeroed(tables, old(State()), 0x100)
    {
      hide OperatorOk, Write, ChipOk;
      ghost var goal := Zeroed(tables, State(), 0x100);
      var i := 0xFF;
      while i >= 0x20
        invariant 0x1F <= i <= 0xFF && Valid() && Zeroed(tables, State(), i + 1) == goal
      {
        WriteReg(i, 0);
        i := i - 1;
      }
    }

    method ForceAllOff()
      requires Valid()
      modifies slots
      ensures Valid() && State() == AllOn(tables, old(State()), ForcedOff)
    {
      hide OperatorOk, On;
      ghost var was := State();
      InOrder(tables, was);
      for s := 0 to SLOTS
        invariant keyon[..] == was.keyon && blockFnum[..] == was.fnums
        invariant forall i :: 0 <= i < SLOTS ==> slots[i].Op() == if i < s then On(was.ops[i], ForcedOff) else was.ops[i]
      {
        slots[s].ForceOff();
      }
      IsAllOn(tables, was, State(), ForcedOff);
    }

    /** OPLResetChip; its writes to the registers 0x01 to 0x04 do not reach what is modelled here. */
    method Reset()
      requires Valid()
      modifies this`rhythm, slots, keyon, blockFnum
      ensures Valid() && State() == ResetChip(tables, old(State()))
      ensures AllPhased(State()) <==> old(NoStrays(State()))
    {
      hide ChipOk, Zeroed, AllOn, NoStrays, AllPhased;
      ResetKeepsPhasedIff(tables, State());
      ZeroAll();
      ForceAllOff();
    }

    /** The chip when it has been created. */
    constructor (tables: Tables)
      ensures Valid() && AllOff(State()) && NoStrays(State()) && rhythm == 0
      ensures fresh(slots) && fresh(keyon) && fresh(blockFnum)
    {
      hide OperatorOk, IsOff;
      var ss: seq<Slot> := [];
      for i := 0 to SLOTS
        invariant |ss| == i && fresh(ss) && forall j, k :: 0 <= j < k < i ==> ss[j] != ss[k]
        invariant forall j :: 0 <= j < i ==> ss[j].tables == tables && ss[j].Valid(0) && IsOff(ss[j].State())
      {
        var slot := new Slot(tables);
        ss := ss + [slot];
      }
      this.tables, slots, rhythm := tables, ss, 0;
      keyon := new bool[CHANNELS](_ => false);
      blockFnum := new nat[CHANNELS](_ => 0);
      new;
      AllNew(tables, State());
    }
  }
}
