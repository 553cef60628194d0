/** What a reset of the chip leaves behind (OPLResetChip of src/fmopl.c): it keys off what the key-on
    registers keyed, but not what the rhythm register did. */
module FmoplReset {
  import opened Bits
  import opened Machine
  import opened FmoplSpec
  import opened FmoplCurve
  import opened FmoplChipSpec

  ghost predicate AllPhased(c: Chip) {
    forall s :: 0 <= s < |c.ops| ==> Phased(c.ops[s].env)
  }

  /** An operator in attack or decay although the key of its channel is off. */
  predicate Stray(c: Chip, s: nat)
    requires Shaped(c) && s < SLOTS
  {
    c.ops[s].env.evm != Release && !c.keyon[s / 2]
  }

  ghost predicate NoStrays(c: Chip)
    requires Shaped(c)
  {
    forall s :: 0 <= s < SLOTS ==> !Stray(c, s)
  }

  // The reset, register by register

  /** A zero written to a register ends a note only through the key-on register of its channel. */
  lemma ZeroWritten(t: Tables, c: Chip, r: nat, s: nat)
    requires ChipOk(t, c) && 0x20 <= r < 0x100 && s < SLOTS
    ensures var c', ch := Write(t, c, r, 0), s / 2;
            && c'.keyon[ch] == (c.keyon[ch] && r != 0xB0 + ch)
            && c'.ops[s].env.evm == if r == 0xB0 + ch && c.keyon[ch] then Release else c.ops[s].env.evm
  {
    hide TotalLevel;
    assert !HasBit(0, 0x20);
  }

  lemma {:induction false} ZeroedNotes(t: Tables, c: Chip, r: nat, s: nat)
    requires ChipOk(t, c) && r <= 0x100 && s < SLOTS
    ensures var c', ch := Zeroed(t, c, r), s / 2;
            && c'.keyon[ch] == (c.keyon[ch] && 0xB0 + ch >= r)
            && c'.ops[s].env.evm == if 0xB0 + ch < r && c.keyon[ch] then Release else c.ops[s].env.evm
    decreases r
  {
    hide Write, ChipOk;
    if r > 0x20 {
      ZeroWritten(t, c, r - 1, s);
      ZeroedNotes(t, Write(t, c, r - 1, 0), r - 1, s);
    }
  }

  /** Every operator after a reset: the counter forced off, all keys off, and the phase as it was
      unless the channel's key was on. */
  lemma ResetLeaves(t: Tables, c: Chip, s: nat)
    requires ChipOk(t, c) && s < SLOTS
    ensures var c' := ResetChip(t, c); var e := c'.ops[s].env;
            && e.evc == EG_OFF && e.eve == EG_OFF + 1 && e.evs == 0 && !c'.keyon[s / 2]
            && e.evm == if c.keyon[s / 2] then Release else c.ops[s].env.evm
  {
    hide Zeroed, OperatorOk;
    ZeroedNotes(t, c, 0x100, s);
  }

  /** A reset brings all operators in order if and only if none was in attack or decay with the key of
      its channel off. */
  lemma ResetKeepsPhasedIff(t: Tables, c: Chip)
    requires ChipOk(t, c)
    ensures AllPhased(ResetChip(t, c)) <==> NoStrays(c)
  {
    hide ResetChip, OperatorOk;
    forall s | 0 <= s < SLOTS
      ensures Phased(ResetChip(t, c).ops[s].env) <==> !Stray(c, s)
    {
      ResetLeaves(t, c, s);
      ResetInRange(t, c, s);
    }
  }

  lemma ResetInRange(t: Tables, c: Chip, s: nat)
    requires ChipOk(t, c) && s < SLOTS
    ensures InRange(ResetChip(t, c).ops[s].env)
  {
    hide Zeroed;
  }

  // Where strays come from

  /** The chip as it is created. */
  predicate AllOff(c: Chip) {
    forall s :: 0 <= s < |c.ops| ==> IsOff(c.ops[s].env)
  }

  predicate IsOff(e: Env) {
    e.evm == Release && e.evc == EG_OFF && e.eve == EG_OFF + 1
  }

  /** Writes that do not use rhythm mode. */
  predicate Melodic(ev: ChipEvent) {
    ev.WriteReg? && ev.r == RHYTHM ==> !HasBit(ev.v, 0x20)
  }

  lemma PhasedOn(o: Operator, ev: Event)
    requires Phased(o.env) && Legal(ev) && ev != ForcedOff
    ensures Phased(On(o, ev).env)
  {
    StepKeepsPhased(o.env, ev);
  }

  lemma PhasedRefreshed(t: Tables, o: Operator, fnum: nat)
    requires Phased(o.env)
    ensures Phased(Refreshed(t, o, fnum).env)
  {
    var o1 := o.(ksr := KsrOf(o.ksrShift, fnum), tll := TotalLevel(t, o.tl, o.ksl, fnum));
    StepKeepsPhased(o.env, Scaling(AttackStep(t, o1), DecayStep(t, o1), ReleaseStep(t, o1)));
  }

  lemma PhasedWritten(t: Tables, o: Operator, fnum: nat, r: nat, v: byte)
    requires OperatorOk(t, o, fnum) && Phased(o.env)
    ensures Phased(Written(t, o, fnum, r, v).env)
  {
    hide Phased, Step, TotalLevel, AttackStep, DecayStep, ReleaseStep, Refreshed;
    if r / 0x20 == 1 {
      var hold := Holding(v / 0x20 % 2 == 1);
      StepKeepsPhased(o.env, hold);
      PhasedRefreshed(t, On(o, hold).(ksrShift := if v / 0x10 % 2 == 1 then 0 else 2, ams := v / 0x80 == 1), fnum);
    } else if r / 0x20 == 3 {
      var o1 := o.(ar := v / 0x10, dr := v % 0x10);
      StepKeepsPhased(o.env, AttackDecay(AttackStep(t, o1), DecayStep(t, o1)));
    } else if r / 0x20 == 4 {
      StepKeepsPhased(o.env, SustainRelease(SlTable(v / 0x10), ReleaseStep(t, o.(rr := v % 0x10))));
    }
  }

  lemma PhasedAfter(t: Tables, c: Chip, r: nat, v: byte, s: nat)
    requires ChipOk(t, c) && r < 0x100 && s < SLOTS && Phased(c.ops[s].env)
    ensures Phased(OpAfter(t, c, r, v, s).env)
  {
    hide Phased, Refreshed, Written, Step, TotalLevel, AttackStep, DecayStep, ReleaseStep;
    var o, fnum := c.ops[s], c.fnums[s / 2];
    PhasedOn(o, KeyOn);
    PhasedOn(o, KeyOff);
    PhasedRefreshed(t, o, FnumAfter(c, r, v, s / 2));
    PhasedRefreshed(t, On(o, KeyOn), FnumAfter(c, r, v, s / 2));
    PhasedRefreshed(t, On(o, KeyOff), FnumAfter(c, r, v, s / 2));
    PhasedWritten(t, o, fnum, r, v);
  }

  /** One event, for one operator: its form is kept, and only rhythm mode makes strays, of the drums. */
  lemma OneStep(t: Tables, c: Chip, ev: ChipEvent, s: nat)
    requires ChipOk(t, c) && Legal1(ev) && s < SLOTS && ev != Reset
    ensures Phased(c.ops[s].env) ==> Phased(ChipStep(t, c, ev).ops[s].env)
    ensures !Stray(c, s) && (s < 12 || Melodic(ev)) ==> !Stray(ChipStep(t, c, ev), s)
  {
    OneStepPhased(t, c, ev, s);
    OneStepStray(t, c, ev, s);
  }

  lemma OneStepPhased(t: Tables, c: Chip, ev: ChipEvent, s: nat)
    requires ChipOk(t, c) && Legal1(ev) && s < SLOTS && ev != Reset
    ensures Phased(c.ops[s].env) ==> Phased(ChipStep(t, c, ev).ops[s].env)
  {
    hide TotalLevel, Phased, OpAfter, AttackStep, DecayStep, ReleaseStep, Step;
    if Phased(c.ops[s].env) {
      match ev
      case WriteReg(r, v) => PhasedAfter(t, c, r, v, s);
      case Update => PhasedOn(c.ops[s], Sample);
    }
  }

  lemma OneStepStray(t: Tables, c: Chip, ev: ChipEvent, s: nat)
    requires ChipOk(t, c) && Legal1(ev) && s < SLOTS && ev != Reset
    ensures !Stray(c, s) && (s < 12 || Melodic(ev)) ==> !Stray(ChipStep(t, c, ev), s)
  {
    hide OpAfter, On, OperatorOk, KeyAfter;
    match ev
    case WriteReg(r, v) =>
      if !Stray(c, s) && (s < 12 || Melodic(ev)) { StrayAfter(t, c, r, v, s); }
    case Update =>
      AllOnAt(t, c, Sample, s);
      RangeAt(t, c, s);
      SampleEnds(c.ops[s]);
  }

  lemma RangeAt(t: Tables, c: Chip, s: nat)
    requires ChipOk(t, c) && s < SLOTS
    ensures InRange(c.ops[s].env)
  {
  }

  lemma SampleEnds(o: Operator)
    requires InRange(o.env)
    ensures o.env.evm == Release ==> On(o, Sample).env.evm == Release
  {
  }

  lemma SamePhase(t: Tables, o: Operator, fnum: nat, r: nat, v: byte)
    requires InRange(o.env)
    ensures Refreshed(t, o, fnum).env.evm == o.env.evm
    ensures OperatorOk(t, o, fnum) ==> Written(t, o, fnum, r, v).env.evm == o.env.evm
  {
    hide TotalLevel, AttackStep, DecayStep, ReleaseStep;
  }

  lemma StrayAfter(t: Tables, c: Chip, r: nat, v: byte, s: nat)
    requires ChipOk(t, c) && r < 0x100 && s < SLOTS && !Stray(c, s) && (s < 12 || Melodic(WriteReg(r, v)))
    ensures OpAfter(t, c, r, v, s).env.evm != Release ==> KeyAfter(c, r, v, s / 2)
  {
    hide Refreshed, Written, TotalLevel, AttackStep, DecayStep, ReleaseStep;
    var o, fnum := c.ops[s], c.fnums[s / 2];
    SamePhase(t, o, fnum, r, v);
    SamePhase(t, Keyed(o, c.keyon[s / 2], KeyAfter(c, r, v, s / 2)), FnumAfter(c, r, v, s / 2), r, v);
  }

  /** All events: a reset needs to find no strays, and leaves none if it does. */
  lemma StepKeepsOrder(t: Tables, c: Chip, ev: ChipEvent)
    requires ChipOk(t, c) && Legal1(ev) && AllPhased(c)
    ensures AllPhased(ChipStep(t, c, ev)) <==> (ev == Reset ==> NoStrays(c))
    ensures NoStrays(c) && Melodic(ev) ==> NoStrays(ChipStep(t, c, ev))
    ensures forall s :: 0 <= s < 12 && !Stray(c, s) ==> !Stray(ChipStep(t, c, ev), s)
  {
    hide Stray, ChipStep, Phased, OperatorOk;
    if ev == Reset {
      ResetKeepsPhasedIff(t, c);
      forall s | 0 <= s < SLOTS && !Stray(c, s)
        ensures !Stray(ChipStep(t, c, ev), s)
      {
        ResetLeavesNoStray(t, c, s);
      }
      ResetIsStep(t, c);
    } else {
      forall s | 0 <= s < SLOTS
        ensures Phased(ChipStep(t, c, ev).ops[s].env)
        ensures !Stray(c, s) && (s < 12 || Melodic(ev)) ==> !Stray(ChipStep(t, c, ev), s)
      {
        OneStep(t, c, ev, s);
      }
    }
  }

  lemma ResetIsStep(t: Tables, c: Chip)
    requires ChipOk(t, c)
    ensures ChipStep(t, c, Reset) == ResetChip(t, c)
  {
  }

  lemma ResetLeavesNoStray(t: Tables, c: Chip, s: nat)
    requires ChipOk(t, c) && s < SLOTS && !Stray(c, s)
    ensures !Stray(ChipStep(t, c, Reset), s)
  {
    hide ResetChip;
    ResetLeaves(t, c, s);
  }

  /** Every reset in a run finds no strays. */
  ghost predicate ResetsInOrder(t: Tables, c: Chip, evs: seq<ChipEvent>)
    requires ChipOk(t, c) && forall i :: 0 <= i < |evs| ==> Legal1(evs[i])
    decreases |evs|
  {
    evs == [] || ((evs[0] == Reset ==> NoStrays(c)) && ResetsInOrder(t, ChipStep(t, c, evs[0]), evs[1..]))
  }

  /** Whole runs, resets included. */
  lemma {:induction false} RunKeepsPhased(t: Tables, c: Chip, evs: seq<ChipEvent>)
    requires ChipOk(t, c) && AllPhased(c) && forall i :: 0 <= i < |evs| ==> Legal1(evs[i])
    requires ResetsInOrder(t, c, evs)
    ensures AllPhased(ChipRun(t, c, evs))
    decreases |evs|
  {
    hide AllPhased, NoStrays, ChipStep, ChipOk;
    if evs != [] {
      StepKeepsOrder(t, c, evs[0]);
      RunKeepsPhased(t, ChipStep(t, c, evs[0]), evs[1..]);
    }
  }

  /** Without rhythm mode there are never any strays, so resets are always in order; with it, only
      drums (the operators of the channels 6 to 8) are left astray. */
  lemma {:induction false} MelodicRuns(t: Tables, c: Chip, evs: seq<ChipEvent>)
    requires ChipOk(t, c) && AllPhased(c) && NoStrays(c)
    requires forall i :: 0 <= i < |evs| ==> Legal1(evs[i]) && Melodic(evs[i])
    ensures ResetsInOrder(t, c, evs) && AllPhased(ChipRun(t, c, evs)) && NoStrays(ChipRun(t, c, evs))
    decreases |evs|
  {
    hide AllPhased, NoStrays, ChipStep, ChipOk;
    if evs != [] {
      StepKeepsOrder(t, c, evs[0]);
      MelodicRuns(t, ChipStep(t, c, evs[0]), evs[1..]);
    }
  }

  lemma {:induction false} OnlyDrumsStray(t: Tables, c: Chip, evs: seq<ChipEvent>, s: nat)
    requires ChipOk(t, c) && AllPhased(c) && (forall i :: 0 <= i < |evs| ==> Legal1(evs[i])) && ResetsInOrder(t, c, evs)
    requires s < 12 && !Stray(c, s)
    ensures !Stray(ChipRun(t, c, evs), s)
    decreases |evs|
  {
    hide AllPhased, NoStrays, ChipStep, ChipOk, Stray;
    if evs != [] {
      StepKeepsOrder(t, c, evs[0]);
      OnlyDrumsStray(t, ChipStep(t, c, evs[0]), evs[1..], s);
    }
  }

  /** A caller can bring all drums in order before a reset: key them all on, then all off. */
  lemma DrumsReleased(t: Tables, c: Chip)
    requires ChipOk(t, c) && forall s :: 0 <= s < 12 ==> !Stray(c, s)
    ensures NoStrays(Write(t, Write(t, c, RHYTHM, 0x3F), RHYTHM, 0x20))
  {
    hide TotalLevel, OperatorOk;
    var c1 := Write(t, c, RHYTHM, 0x3F);
    forall s | 0 <= s < SLOTS
      ensures !Stray(Write(t, c1, RHYTHM, 0x20), s)
    {
      DrumReleased(t, c, s);
    }
  }

  lemma DrumReleased(t: Tables, c: Chip, s: nat)
    requires ChipOk(t, c) && s < SLOTS && (s < 12 ==> !Stray(c, s))
    ensures !Stray(Write(t, Write(t, c, RHYTHM, 0x3F), RHYTHM, 0x20), s)
  {
    hide TotalLevel;
    assert HasBit(0x3F, 0x20) && HasBit(0x20, 0x20);
    if s >= 12 {
      assert HasBit(0x3F, DrumBit(s)) && !HasBit(0x20, DrumBit(s));
    }
  }

  // What strays do

  /** Events that key nothing on. */
  predicate KeysNothing(ev: ChipEvent) {
    && Legal1(ev)
    && (ev.WriteReg? && 0xB0 <= ev.r <= 0xB8 ==> !HasBit(ev.v, 0x20))
    && (ev.WriteReg? && ev.r == RHYTHM && HasBit(ev.v, 0x20) ==> ev.v % 0x20 == 0)
    && ev != Reset
  }

  predicate Silent(c: Chip) {
    forall s :: 0 <= s < |c.ops| ==> c.ops[s].env.evc == EG_OFF
  }

  predicate KeysOff(c: Chip)
    requires Shaped(c)
  {
    forall ch :: 0 <= ch < CHANNELS ==> !c.keyon[ch]
  }

  lemma StepKeepsOff(e: Env, ev: Event)
    requires InRange(e) && IsOff(e) && Legal(ev) && ev != KeyOn
    ensures IsOff(Step(e, ev))
  {
  }

  lemma OffRefreshed(t: Tables, o: Operator, fnum: nat)
    requires InRange(o.env) && IsOff(o.env)
    ensures IsOff(Refreshed(t, o, fnum).env)
  {
    hide TotalLevel;
  }

  lemma OffWritten(t: Tables, o: Operator, fnum: nat, r: nat, v: byte)
    requires OperatorOk(t, o, fnum) && IsOff(o.env)
    ensures IsOff(Written(t, o, fnum, r, v).env)
  {
    hide IsOff, Step, TotalLevel, AttackStep, DecayStep, ReleaseStep, Refreshed;
    if r / 0x20 == 1 {
      var hold := Holding(v / 0x20 % 2 == 1);
      StepKeepsOff(o.env, hold);
      OffRefreshed(t, On(o, hold).(ksrShift := if v / 0x10 % 2 == 1 then 0 else 2, ams := v / 0x80 == 1), fnum);
    } else if r / 0x20 == 3 {
      var o1 := o.(ar := v / 0x10, dr := v % 0x10);
      StepKeepsOff(o.env, AttackDecay(AttackStep(t, o1), DecayStep(t, o1)));
    } else if r / 0x20 == 4 {
      StepKeepsOff(o.env, SustainRelease(SlTable(v / 0x10), ReleaseStep(t, o.(rr := v % 0x10))));
    }
  }

  lemma OffAfter(t: Tables, c: Chip, r: nat, v: byte, s: nat)
    requires ChipOk(t, c) && s < SLOTS && IsOff(c.ops[s].env) && !c.keyon[s / 2] && KeysNothing(WriteReg(r, v))
    ensures IsOff(OpAfter(t, c, r, v, s).env) && !KeyAfter(c, r, v, s / 2)
  {
    hide IsOff, Refreshed, Written, Step, TotalLevel, AttackStep, DecayStep, ReleaseStep;
    var o, fnum := c.ops[s], c.fnums[s / 2];
    if r == RHYTHM && s >= 12 { assert HasBit(v, 0x20) ==> !HasBit(v, DrumBit(s)); }
    StepKeepsOff(o.env, KeyOff);
    OffRefreshed(t, o, FnumAfter(c, r, v, s / 2));
    OffWritten(t, o, fnum, r, v);
  }

  /** An operator that is off stays so until it is keyed on. */
  lemma OffStaysOff(t: Tables, c: Chip, ev: ChipEvent, s: nat)
    requires ChipOk(t, c) && s < SLOTS && IsOff(c.ops[s].env) && !c.keyon[s / 2] && KeysNothing(ev)
    ensures var c' := ChipStep(t, c, ev); IsOff(c'.ops[s].env) && !c'.keyon[s / 2]
  {
    hide IsOff, OpAfter, KeyAfter, Step, TotalLevel, AttackStep, DecayStep, ReleaseStep;
    match ev
    case WriteReg(r, v) => OffAfter(t, c, r, v, s);
    case Update => StepKeepsOff(c.ops[s].env, Sample);
  }

  lemma {:induction false} OffRun(t: Tables, c: Chip, evs: seq<ChipEvent>, s: nat)
    requires ChipOk(t, c) && s < SLOTS && IsOff(c.ops[s].env) && !c.keyon[s / 2]
    requires forall i :: 0 <= i < |evs| ==> Legal1(evs[i]) && KeysNothing(evs[i])
    ensures IsOff(ChipRun(t, c, evs).ops[s].env)
    decreases |evs|
  {
    hide ChipStep, ChipOk, IsOff;
    if evs != [] {
      OffStaysOff(t, c, evs[0], s);
      OffRun(t, ChipStep(t, c, evs[0]), evs[1..], s);
    }
  }

  ghost predicate KeyFree(evs: seq<ChipEvent>) {
    forall i :: 0 <= i < |evs| ==> Legal1(evs[i]) && KeysNothing(evs[i])
  }

  /** The fastest attack moves; the table has EG_AED - 1 for it. */
  ghost predicate FastestMoves(t: Tables) {
    forall k :: 0 <= k < 15 ==> t.attack(15, k) > 0
  }

  /** Writes that make a stray in attack sound after a reset: its rates, and a sample. */
  function AttackRates(s: nat): (evs: seq<ChipEvent>)
    requires s < SLOTS
  {
    [WriteReg(0x20 + OffsetOf(s), 0), WriteReg(0x60 + OffsetOf(s), 0xF0), Update]
  }

  /** The same for one in decay: its levels, and a sample. */
  function DecayLevels(s: nat): (evs: seq<ChipEvent>)
    requires s < SLOTS
  {
    [WriteReg(0x80 + OffsetOf(s), 0), Update]
  }

  lemma AttackSounds(t: Tables, c: Chip, s: nat)
    requires ChipOk(t, c) && FastestMoves(t) && s < SLOTS
    requires var e := c.ops[s].env; e.evm == Attack && e.evc == EG_OFF && e.eve == EG_OFF + 1
    ensures KeyFree(AttackRates(s)) && ChipRun(t, c, AttackRates(s)).ops[s].env.evc == EG_DST
  {
    AttackRatesKeyNothing(s);
    AttackRun(t, c, s);
    hide OperatorOk, Write, On, WithMul, WithArDr, Step, AllOn, ChipRun, AttackRates, KeyFree;
    var x, o, fnum := OffsetOf(s), c.ops[s], c.fnums[s / 2];
    var c1 := Write(t, c, 0x20 + x, 0);
    var c2 := Write(t, c1, 0x60 + x, 0xF0);
    OwnWrite(t, c, 1, 0, s);
    OwnWrite(t, c1, 3, 0xF0, s);
    AttackRatesSound(t, o, fnum);
    AllOnAt(t, c2, Sample, s);
  }

  lemma AttackRun(t: Tables, c: Chip, s: nat)
    requires ChipOk(t, c) && s < SLOTS
    ensures (forall i :: 0 <= i < |AttackRates(s)| ==> Legal1(AttackRates(s)[i]))
    ensures ChipRun(t, c, AttackRates(s)) == AllOn(t, Write(t, Write(t, c, 0x20 + OffsetOf(s), 0), 0x60 + OffsetOf(s), 0xF0), Sample)
  {
    hide ChipOk, Write, AllOn, OffsetOf, ChipRun;
    ThreeEvents(t, c, AttackRates(s));
  }

  /** A write to a register of an operator. */
  lemma OwnWrite(t: Tables, c: Chip, k: nat, v: byte, s: nat)
    requires ChipOk(t, c) && 1 <= k <= 4 && s < SLOTS
    ensures var r := 0x20 * k + OffsetOf(s); var c' := Write(t, c, r, v);
            c'.ops[s] == Written(t, c.ops[s], c.fnums[s / 2], r, v) && c'.fnums == c.fnums && r / 0x20 == k
  {
    hide TotalLevel, AttackStep, DecayStep, ReleaseStep, Written;
    var x := OffsetOf(s);
    assert (0x20 * k + x) / 0x20 == k && (0x20 * k + x) % 0x20 == x;
    assert Write(t, c, 0x20 * k + x, v).fnums == c.fnums;
  }

  lemma AttackRatesSound(t: Tables, o: Operator, fnum: nat)
    requires OperatorOk(t, o, fnum) && FastestMoves(t) && fnum < 0x2000
    requires o.env.evm == Attack && o.env.evc == EG_OFF && o.env.eve == EG_OFF + 1
    ensures On(WithArDr(t, WithMul(t, o, fnum, 0), fnum, 0xF0), Sample).env.evc == EG_DST
  {
    hide TotalLevel;
    var o1 := WithMul(t, o, fnum, 0);
    assert o1.ksr == fnum / 0x200 / 4 < 15;
    var o2 := WithArDr(t, o1, fnum, 0xF0);
    assert o2.env.evs == t.attack(15, o1.ksr) > 0;
  }

  lemma AllOnAt(t: Tables, c: Chip, ev: Event, s: nat)
    requires ChipOk(t, c) && ev in {Sample, ForcedOff} && s < SLOTS
    ensures AllOn(t, c, ev).ops[s] == On(c.ops[s], ev)
  {
    hide OperatorOk, On;
  }

  lemma AttackRatesKeyNothing(s: nat)
    requires s < SLOTS
    ensures KeyFree(AttackRates(s))
  {
  }

  lemma ThreeEvents(t: Tables, c: Chip, evs: seq<ChipEvent>)
    requires ChipOk(t, c) && |evs| == 3 && forall i :: 0 <= i < |evs| ==> Legal1(evs[i])
    ensures ChipRun(t, c, evs) == ChipStep(t, ChipStep(t, ChipStep(t, c, evs[0]), evs[1]), evs[2])
  {
    hide ChipStep, ChipOk;
    assert ChipRun(t, ChipStep(t, c, evs[0]), evs[1..]) == ChipRun(t, ChipStep(t, ChipStep(t, c, evs[0]), evs[1]), evs[1..][1..]);
  }

  lemma DecaySounds(t: Tables, c: Chip, s: nat)
    requires ChipOk(t, c) && s < SLOTS
    requires var e := c.ops[s].env; e.evm == Decay && e.evc == EG_OFF
    ensures KeyFree(DecayLevels(s)) && ChipRun(t, c, DecayLevels(s)).ops[s].env.evc == EG_DST
  {
    hide TotalLevel;
    var x := OffsetOf(s);
    assert (0x80 + x) / 0x20 == 4 && (0x80 + x) % 0x20 == x;
    var c1 := Write(t, c, 0x80 + x, 0);
    var c2 := AllOn(t, c1, Sample);
    assert c1.ops[s] == WithSlRr(t, c.ops[s], c.fnums[s / 2], 0);
    assert c2.ops[s] == On(c1.ops[s], Sample);
    assert ChipRun(t, c1, DecayLevels(s)[1..]) == ChipRun(t, c2, DecayLevels(s)[1..][1..]);
  }

  /** What a reset is for: the chip is silent until something is keyed on.  It is, whatever is written
      and sampled meanwhile, if and only if the reset found no strays. */
  lemma SilentUntilKeyedIff(t: Tables, c: Chip)
    requires ChipOk(t, c) && FastestMoves(t)
    ensures (forall evs :: KeyFree(evs) ==> Silent(ChipRun(t, ResetChip(t, c), evs))) <==> NoStrays(c)
  {
    hide ResetChip, OperatorOk, ChipRun, FastestMoves, AttackRates, DecayLevels, KeysNothing;
    var z := ResetChip(t, c);
    if NoStrays(c) {
      forall evs | KeyFree(evs)
        ensures Silent(ChipRun(t, z, evs))
      {
        forall s | 0 <= s < SLOTS
          ensures ChipRun(t, z, evs).ops[s].env.evc == EG_OFF
        {
          assert !Stray(c, s);
          ResetLeaves(t, c, s);
          OffRun(t, z, evs, s);
        }
      }
    } else {
      var s :| 0 <= s < SLOTS && Stray(c, s);
      ResetLeaves(t, c, s);
      if c.ops[s].env.evm == Attack {
        AttackSounds(t, z, s);
        assert !Silent(ChipRun(t, z, AttackRates(s)));
      } else {
        DecaySounds(t, z, s);
        assert !Silent(ChipRun(t, z, DecayLevels(s)));
      }
    }
  }

  /** Such a stray: in rhythm mode the snare drum is keyed on; the chip is reset; an instrument is
      written to the drum's registers; and it sounds at full level without having been keyed on. */
  lemma SnareSurvivesReset(t: Tables, c: Chip)
    requires ChipOk(t, c) && AllOff(c) && KeysOff(c) && c.rhythm == 0 && FastestMoves(t)
    ensures var evs := [WriteReg(RHYTHM, 0x28), Reset, WriteReg(0x34, 0), WriteReg(0x74, 0xF0), Update];
            && (forall i :: 0 <= i < |evs| ==> Legal1(evs[i]))
            && AllPhased(ChipRun(t, c, evs[..1])) && !AllPhased(ChipRun(t, c, evs[..2]))
            && ChipRun(t, c, evs).ops[15].env.evc == EG_DST
  {
    hide TotalLevel, ResetChip, OperatorOk, FastestMoves, AllPhased, AllOff;
    var evs := [WriteReg(RHYTHM, 0x28), Reset, WriteReg(0x34, 0), WriteReg(0x74, 0xF0), Update];
    var c1 := SnareOn(t, c);
    var z := ResetChip(t, c1);
    ResetLeaves(t, c1, 15);
    StepKeepsOrder(t, c1, Reset);
    assert Stray(c1, 15);
    AttackSounds(t, z, 15);
    FirstTwo(t, c, evs);
    assert evs[2..] == AttackRates(15);
  }

  lemma SnareOn(t: Tables, c: Chip) returns (c1: Chip)
    requires ChipOk(t, c) && AllOff(c) && KeysOff(c) && c.rhythm == 0
    ensures c1 == Write(t, c, RHYTHM, 0x28) && AllPhased(c1)
    ensures c1.ops[15].env.evm == Attack && !c1.keyon[7]
  {
    hide TotalLevel, AttackStep, DecayStep, ReleaseStep;
    c1 := Write(t, c, RHYTHM, 0x28);
    assert HasBit(0x28, 0x20) && HasBit(0x28, 8) && !HasBit(0, 8);
    forall s | 0 <= s < SLOTS
      ensures Phased(c1.ops[s].env)
    {
      assert IsOff(c.ops[s].env) && InRange(c.ops[s].env) && Phased(c.ops[s].env);
      OneStep(t, c, WriteReg(RHYTHM, 0x28), s);
    }
  }

  lemma FirstTwo(t: Tables, c: Chip, evs: seq<ChipEvent>)
    requires ChipOk(t, c) && |evs| >= 2 && forall i :: 0 <= i < |evs| ==> Legal1(evs[i])
    ensures ChipRun(t, c, evs[..1]) == ChipStep(t, c, evs[0])
    ensures ChipRun(t, c, evs[..2]) == ChipStep(t, ChipStep(t, c, evs[0]), evs[1])
    ensures ChipRun(t, c, evs) == ChipRun(t, ChipStep(t, ChipStep(t, c, evs[0]), evs[1]), evs[2..])
  {
    hide ChipStep, ChipOk;
    var c1 := ChipStep(t, c, evs[0]);
    assert evs[..1][1..] == [] && evs[..2][1..] == [evs[1]] && evs[1..][1..] == evs[2..];
    assert [evs[1]][1..] == [];
    assert ChipRun(t, c1, [evs[1]]) == ChipRun(t, ChipStep(t, c1, evs[1]), []);
  }
}
