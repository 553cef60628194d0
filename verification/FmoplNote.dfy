/** A note on the YM3812, told in register writes and samples (src/fmopl.c): which bits of which register
    give its attack, decay, sustain level, release and total level. */
module FmoplNote {
  import opened Bits
  import opened Machine
  import opened FmoplSpec
  import opened FmoplCurve
  import opened FmoplChipSpec

  /** The register offset of a channel's operator, `k` being 0 for the modulator and 1 for the carrier. */
  function Offset(ch: nat, k: nat): (x: nat)
    requires ch < 9 && k < 2
    ensures x < 0x16
  {
    ch / 3 * 8 + ch % 3 + 3 * k
  }

  lemma OffsetIs(ch: nat, k: nat)
    requires ch < 9 && k < 2
    ensures SlotAt(Offset(ch, k)) == 2 * ch + k
  {
    if ch < 3 {
      assert Offset(ch, k) == ch + 3 * k;
    } else if ch < 6 {
      assert Offset(ch, k) == 8 + (ch - 3) + 3 * k;
    } else {
      assert Offset(ch, k) == 16 + (ch - 6) + 3 * k;
    }
  }

  /** What is programmed: the upper four bits of register 0x20, the rates and the sustain level, and the
      low five bits of register 0xB0 (block and upper bits of the f-number). */
  datatype Sound = Sound(mul: byte, ar: nat, dr: nat, sl: nat, rr: nat, high: nat)

  predicate IsSound(p: Sound) {
    p.ar < 16 && p.dr < 16 && p.sl < 16 && p.rr < 16 && p.high < 32
  }

  /** The writes that program an operator, its channel's key off. */
  function Programming(p: Sound, ch: nat, k: nat): (evs: seq<ChipEvent>)
    requires IsSound(p) && ch < 9 && k < 2
    ensures forall i :: 0 <= i < |evs| ==> Legal1(evs[i])
  {
    [WriteReg(0x20 + Offset(ch, k), p.mul),
     WriteReg(0x60 + Offset(ch, k), p.ar * 16 + p.dr),
     WriteReg(0x80 + Offset(ch, k), p.sl * 16 + p.rr),
     WriteReg(0xB0 + ch, p.high)]
  }

  /** Key scaling: block and top bit of the f-number, or the upper half of the block without KSR. */
  function KeyScale(p: Sound): nat {
    if p.mul / 0x10 % 2 == 1 then p.high / 2 else p.high / 8
  }

  /** The steps per sample, and the level at which the decay ends: 3 dB a step, 93 dB for the last. */
  function AttackOf(t: Tables, p: Sound): rate {
    if p.ar == 0 then 0 else t.attack(p.ar, KeyScale(p))
  }

  function DecayOf(t: Tables, p: Sound): rate {
    if p.dr == 0 then 0 else t.decay(p.dr, KeyScale(p))
  }

  function ReleaseOf(t: Tables, p: Sound): rate {
    t.decay(p.rr, KeyScale(p))
  }

  function Sustain(p: Sound): int {
    0x1000_0000 + (if p.sl == 15 then 31 else p.sl) * 0x80_0000
  }

  predicate Holds(p: Sound) {
    p.mul / 0x20 % 2 == 1
  }

  /** The operator is programmed. */
  predicate Set(t: Tables, c: Chip, p: Sound, s: nat)
    requires ChipOk(t, c) && IsSound(p) && s < SLOTS
  {
    var e := c.ops[s].env;
    && e.evsa == AttackOf(t, p) && e.evsd == DecayOf(t, p) && e.evsr == ReleaseOf(t, p)
    && e.sl == Sustain(p) && e.held == Holds(p)
  }

  /** The fields that the writes set one after the other. */
  predicate SetUpTo(c: Chip, p: Sound, s: nat, n: nat)
    requires Shaped(c) && s < SLOTS
  {
    var o, fnum := c.ops[s], c.fnums[s / 2];
    && (n >= 1 ==> o.env.held == Holds(p) && o.ksrShift == (if p.mul / 0x10 % 2 == 1 then 0 else 2) && o.ksr == KsrOf(o.ksrShift, fnum))
    && (n >= 2 ==> o.ar == p.ar && o.dr == p.dr)
    && (n >= 3 ==> o.rr == p.rr && o.env.sl == Sustain(p))
    && (n >= 4 ==> fnum / 0x100 == p.high && !c.keyon[s / 2])
  }

  /** A write to a register of an operator changes that operator, and no key or frequency. */
  lemma OperatorWrite(t: Tables, c: Chip, r: nat, v: byte, ch: nat, k: nat)
    requires ChipOk(t, c) && r in {0x20, 0x40, 0x60, 0x80} && ch < 9 && k < 2
    ensures var c', s := Write(t, c, r + Offset(ch, k), v), 2 * ch + k;
            && OperatorOk(t, c.ops[s], c.fnums[s / 2])
            && c'.ops[s] == Written(t, c.ops[s], c.fnums[s / 2], r, v)
            && c'.fnums[ch] == c.fnums[ch] && c'.keyon[ch] == c.keyon[ch]
  {
    hide Offset, OperatorOk, Written, SlotAt;
    OffsetIs(ch, k);
    SameWritten(t, c.ops[2 * ch + k], c.fnums[ch], r, Offset(ch, k), v);
  }

  lemma SameWritten(t: Tables, o: Operator, fnum: nat, r: nat, x: nat, v: byte)
    requires OperatorOk(t, o, fnum) && r in {0x20, 0x40, 0x60, 0x80} && x < 0x20
    ensures Written(t, o, fnum, r + x, v) == Written(t, o, fnum, r, v) && (r + x) % 0x20 == x && (r + x) / 0x20 == r / 0x20
  {
    hide OperatorOk;
  }

  lemma FirstWrite(t: Tables, c: Chip, p: Sound, ch: nat, k: nat)
    requires ChipOk(t, c) && IsSound(p) && ch < 9 && k < 2
    ensures SetUpTo(ChipStep(t, c, WriteReg(0x20 + Offset(ch, k), p.mul)), p, 2 * ch + k, 1)
  {
    hide Offset, TotalLevel, AttackStep, DecayStep, ReleaseStep, Write;
    OperatorWrite(t, c, 0x20, p.mul, ch, k);
  }

  lemma SecondWrite(t: Tables, c: Chip, p: Sound, ch: nat, k: nat)
    requires ChipOk(t, c) && IsSound(p) && ch < 9 && k < 2 && SetUpTo(c, p, 2 * ch + k, 1)
    ensures SetUpTo(ChipStep(t, c, WriteReg(0x60 + Offset(ch, k), p.ar * 16 + p.dr)), p, 2 * ch + k, 2)
  {
    hide Offset, TotalLevel, AttackStep, DecayStep, ReleaseStep, Write;
    OperatorWrite(t, c, 0x60, p.ar * 16 + p.dr, ch, k);
  }

  lemma ThirdWrite(t: Tables, c: Chip, p: Sound, ch: nat, k: nat)
    requires ChipOk(t, c) && IsSound(p) && ch < 9 && k < 2 && SetUpTo(c, p, 2 * ch + k, 2)
    ensures SetUpTo(ChipStep(t, c, WriteReg(0x80 + Offset(ch, k), p.sl * 16 + p.rr)), p, 2 * ch + k, 3)
  {
    hide Offset, TotalLevel, AttackStep, DecayStep, ReleaseStep, Write;
    OperatorWrite(t, c, 0x80, p.sl * 16 + p.rr, ch, k);
  }

  lemma FourthWrite(t: Tables, c: Chip, p: Sound, ch: nat, k: nat)
    requires ChipOk(t, c) && IsSound(p) && ch < 9 && k < 2 && SetUpTo(c, p, 2 * ch + k, 3)
    ensures SetUpTo(ChipStep(t, c, WriteReg(0xB0 + ch, p.high)), p, 2 * ch + k, 4)
  {
    hide TotalLevel, AttackStep, DecayStep, ReleaseStep;
    assert !HasBit(p.high, 0x20);
  }

  lemma AllSet(t: Tables, c: Chip, p: Sound, s: nat)
    requires ChipOk(t, c) && IsSound(p) && s < SLOTS && SetUpTo(c, p, s, 4)
    ensures Set(t, c, p, s)
  {
    hide TotalLevel;
    var fnum := c.fnums[s / 2];
    assert OperatorOk(t, c.ops[s], fnum);
    assert fnum / 0x200 == p.high / 2 && fnum / 0x200 / 4 == p.high / 8;
  }

  /** After the writes the operator's envelope is as programmed, from any state of the chip. */
  lemma Programmed(t: Tables, c: Chip, p: Sound, ch: nat, k: nat)
    requires ChipOk(t, c) && IsSound(p) && ch < 9 && k < 2
    ensures var c4 := ChipRun(t, c, Programming(p, ch, k));
            Set(t, c4, p, 2 * ch + k) && !c4.keyon[ch] && c4.fnums[ch] / 0x100 == p.high
  {
    hide OperatorOk, ChipStep, SetUpTo, Offset, Set;
    var evs := Programming(p, ch, k);
    var c1 := ChipStep(t, c, evs[0]);
    var c2 := ChipStep(t, c1, evs[1]);
    var c3 := ChipStep(t, c2, evs[2]);
    FirstWrite(t, c, p, ch, k);
    SecondWrite(t, c1, p, ch, k);
    ThirdWrite(t, c2, p, ch, k);
    FourthWrite(t, c3, p, ch, k);
    AllSet(t, ChipStep(t, c3, evs[3]), p, 2 * ch + k);
    OfFour(ChipStep(t, c3, evs[3]), p, 2 * ch + k);
    FourSteps(t, c, evs);
  }

  lemma OfFour(c: Chip, p: Sound, s: nat)
    requires Shaped(c) && s < SLOTS && SetUpTo(c, p, s, 4)
    ensures !c.keyon[s / 2] && c.fnums[s / 2] / 0x100 == p.high
  {
  }

  lemma FourSteps(t: Tables, c: Chip, evs: seq<ChipEvent>)
    requires ChipOk(t, c) && |evs| == 4 && forall i :: 0 <= i < 4 ==> Legal1(evs[i])
    ensures ChipRun(t, c, evs) == ChipStep(t, ChipStep(t, ChipStep(t, ChipStep(t, c, evs[0]), evs[1]), evs[2]), evs[3])
  {
    hide ChipOk, ChipStep;
    var c1 := ChipStep(t, c, evs[0]);
    var c2 := ChipStep(t, c1, evs[1]);
    var c3 := ChipStep(t, c2, evs[2]);
    assert evs[1..][1..] == evs[2..] && evs[2..][1..] == evs[3..] && evs[3..][1..] == [];
    assert ChipRun(t, c, evs) == ChipRun(t, c1, evs[1..]);
    assert ChipRun(t, c1, evs[1..]) == ChipRun(t, c2, evs[2..]);
    assert ChipRun(t, c2, evs[2..]) == ChipRun(t, c3, evs[3..]);
    assert ChipRun(t, c3, evs[3..]) == ChipRun(t, ChipStep(t, c3, evs[3]), []);
  }

  // Samples

  function Updates(n: nat): (evs: seq<ChipEvent>)
    ensures |evs| == n && forall i :: 0 <= i < n ==> evs[i] == Update
  {
    seq(n, _ => Update)
  }

  lemma {:induction false} UpdatesAreSamples(t: Tables, c: Chip, n: nat, s: nat)
    requires ChipOk(t, c) && s < SLOTS
    ensures ChipRun(t, c, Updates(n)) == c.(ops := ChipRun(t, c, Updates(n)).ops)
    ensures InRange(c.ops[s].env) && ChipRun(t, c, Updates(n)).ops[s].env == Samples(c.ops[s].env, n)
    decreases n
  {
    hide OperatorOk, Step;
    InRangeAt(t, c, s);
    if n > 0 {
      assert Updates(n)[1..] == Updates(n - 1);
      UpdatesAreSamples(t, AllOn(t, c, Sample), n - 1, s);
    }
  }

  lemma InRangeAt(t: Tables, c: Chip, s: nat)
    requires ChipOk(t, c) && s < SLOTS
    ensures InRange(c.ops[s].env)
  {
  }

  /** Key-on, the frequency staying as it is. */
  function Key(p: Sound, ch: nat): (ev: ChipEvent)
    requires IsSound(p) && ch < 9
    ensures Legal1(ev)
  {
    WriteReg(0xB0 + ch, 0x20 + p.high)
  }

  lemma KeyKeys(t: Tables, c: Chip, p: Sound, ch: nat, k: nat)
    requires ChipOk(t, c) && IsSound(p) && ch < 9 && k < 2 && !c.keyon[ch] && c.fnums[ch] / 0x100 == p.high
    ensures var c' := ChipStep(t, c, Key(p, ch)); var s := 2 * ch + k;
            c'.ops[s] == On(c.ops[s], KeyOn) && c'.keyon[ch] && c'.fnums[ch] == c.fnums[ch]
  {
    hide OperatorOk, Step, Refreshed;
    assert HasBit(0x20 + p.high, 0x20);
    InRangeAt(t, c, 2 * ch + k);
  }

  lemma KeyEnds(t: Tables, c: Chip, p: Sound, ch: nat, k: nat)
    requires ChipOk(t, c) && IsSound(p) && ch < 9 && k < 2 && c.keyon[ch] && c.fnums[ch] / 0x100 == p.high
    ensures var c' := ChipStep(t, c, WriteReg(0xB0 + ch, p.high)); var s := 2 * ch + k;
            c'.ops[s] == On(c.ops[s], KeyOff)
  {
    hide OperatorOk, Step, Refreshed;
    assert !HasBit(p.high, 0x20);
    InRangeAt(t, c, 2 * ch + k);
  }

  lemma {:induction false} RunConcat(t: Tables, c: Chip, a: seq<ChipEvent>, b: seq<ChipEvent>)
    requires ChipOk(t, c) && (forall i :: 0 <= i < |a| ==> Legal1(a[i])) && forall i :: 0 <= i < |b| ==> Legal1(b[i])
    ensures ChipRun(t, c, a + b) == ChipRun(t, ChipRun(t, c, a), b)
    decreases |a|
  {
    hide ChipOk, ChipStep;
    if a == [] {
      assert a + b == b;
    } else {
      assert (a + b)[1..] == a[1..] + b;
      RunConcat(t, ChipStep(t, c, a[0]), a[1..], b);
    }
  }

  /** A note: programmed, keyed on, and left alone for `n` samples. */
  function Note(t: Tables, c: Chip, p: Sound, ch: nat, k: nat, n: nat): (c': Chip)
    requires ChipOk(t, c) && IsSound(p) && ch < 9 && k < 2
    ensures ChipOk(t, c')
  {
    ChipRun(t, c, Programming(p, ch, k) + [Key(p, ch)] + Updates(n))
  }

  lemma NoteIs(t: Tables, c: Chip, p: Sound, ch: nat, k: nat, n: nat)
    requires ChipOk(t, c) && IsSound(p) && ch < 9 && k < 2
    ensures var c4, c', s := ChipRun(t, c, Programming(p, ch, k)), Note(t, c, p, ch, k, n), 2 * ch + k;
            && Set(t, c4, p, s) && InRange(c4.ops[s].env)
            && c'.ops[s].env == Samples(Step(c4.ops[s].env, KeyOn), n)
            && c'.keyon[ch] && c'.fnums[ch] / 0x100 == p.high
  {
    hide ChipStep, Step, Set, OperatorOk;
    var s := 2 * ch + k;
    var c4 := ChipRun(t, c, Programming(p, ch, k));
    Programmed(t, c, p, ch, k);
    var c5 := ChipStep(t, c4, Key(p, ch));
    InRangeAt(t, c4, s);
    KeyKeys(t, c4, p, ch, k);
    UpdatesAreSamples(t, c5, n, s);
    RunConcat(t, c, Programming(p, ch, k) + [Key(p, ch)], Updates(n));
    RunConcat(t, c, Programming(p, ch, k), [Key(p, ch)]);
    assert [Key(p, ch)][1..] == [];
    assert ChipRun(t, c4, [Key(p, ch)]) == ChipRun(t, c5, []) == c5;
  }

  /** The attack: a straight line by the attack step, to full level. */
  lemma NoteAttacks(t: Tables, c: Chip, p: Sound, ch: nat, k: nat, n: nat)
    requires ChipOk(t, c) && IsSound(p) && ch < 9 && k < 2
    requires n * AttackOf(t, p) < 0x1000_0000
    ensures Note(t, c, p, ch, k, n).ops[2 * ch + k].env.evc == n * AttackOf(t, p)
  {
    hide OperatorOk, Samples, Note, CeilDiv;
    NoteIs(t, c, p, ch, k, n);
    var e := ChipRun(t, c, Programming(p, ch, k)).ops[2 * ch + k].env;
    EnvelopeIsCurve(e, n);
    if e.evsa > 0 { AttackTimeIs(e.evsa, n); }
  }

  lemma AttackTimeIs(a: rate, n: nat)
    requires a > 0
    ensures n < AttackTime(a) <==> n * a < 0x1000_0000
  {
    hide CeilDiv;
    CeilDivIs(0x1000_0000, a);
    if n < AttackTime(a) { TimesMonotone(n, AttackTime(a) - 1, a); } else { TimesMonotone(AttackTime(a), n, a); }
  }

  /** The counter `m` samples after the attack. */
  function AfterAttack(t: Tables, c: Chip, p: Sound, ch: nat, k: nat, m: nat): int
    requires ChipOk(t, c) && IsSound(p) && ch < 9 && k < 2 && AttackOf(t, p) > 0
  {
    Note(t, c, p, ch, k, AttackTime(AttackOf(t, p)) + m).ops[2 * ch + k].env.evc
  }

  lemma AfterAttackIs(t: Tables, c: Chip, p: Sound, ch: nat, k: nat, m: nat) returns (e: Env)
    requires ChipOk(t, c) && IsSound(p) && ch < 9 && k < 2 && AttackOf(t, p) > 0
    ensures IsLevel(e.sl) && e.sl == Sustain(p) && e.evsd == DecayOf(t, p) && e.evsr == ReleaseOf(t, p) && e.held == Holds(p)
    ensures AfterAttack(t, c, p, ch, k, m) ==
              if InDecay(e, m) then EG_DST + m * e.evsd
              else if e.held then e.sl
              else Min(EG_OFF, e.sl + (m - DecayTime(e.evsd, e.sl)) * e.evsr)
  {
    hide OperatorOk, Samples, Note, InDecay, DecayTime, AttackTime, Curve, Step;
    var n := AttackTime(AttackOf(t, p)) + m;
    NoteIs(t, c, p, ch, k, n);
    e := ChipRun(t, c, Programming(p, ch, k)).ops[2 * ch + k].env;
    EnvelopeIsCurve(e, n);
    CurveAfterAttack(e, m);
  }

  lemma CurveAfterAttack(e: Env, m: nat)
    requires IsLevel(e.sl) && e.evsa > 0
    ensures Curve(e, AttackTime(e.evsa) + m) ==
              if InDecay(e, m) then EG_DST + m * e.evsd
              else if e.held then e.sl
              else Min(EG_OFF, e.sl + (m - DecayTime(e.evsd, e.sl)) * e.evsr)
  {
    hide InDecay, DecayTime, AttackTime;
  }

  /** After the attack: a straight line by the decay step down to the sustain level, where the note stays
      if it is held. */
  lemma NoteDecays(t: Tables, c: Chip, p: Sound, ch: nat, k: nat, m: nat)
    requires ChipOk(t, c) && IsSound(p) && ch < 9 && k < 2 && AttackOf(t, p) > 0
    ensures var way := m * DecayOf(t, p);
            && (way < Sustain(p) - 0x1000_0000 ==> AfterAttack(t, c, p, ch, k, m) == 0x1000_0000 + way)
            && (way >= Sustain(p) - 0x1000_0000 && m > 0 && Holds(p) ==> AfterAttack(t, c, p, ch, k, m) == Sustain(p))
  {
    hide AfterAttack, CeilDiv, DecayOf, Sustain, ReleaseOf, DecayTime;
    var e := AfterAttackIs(t, c, p, ch, k, m);
    DecayTimeIs(e, m);
  }

  /** If it is not held it falls on by the release step, `j` samples after the attack being the first at
      the sustain level. */
  lemma NoteFallsOn(t: Tables, c: Chip, p: Sound, ch: nat, k: nat, m: nat, j: nat)
    requires ChipOk(t, c) && IsSound(p) && ch < 9 && k < 2 && AttackOf(t, p) > 0 && !Holds(p)
    requires 1 <= j <= m && (j > 1 ==> (j - 1) * DecayOf(t, p) < Sustain(p) - 0x1000_0000)
    requires j * DecayOf(t, p) >= Sustain(p) - 0x1000_0000
    ensures AfterAttack(t, c, p, ch, k, m) == Min(0x2000_0000, Sustain(p) + (m - j) * ReleaseOf(t, p))
  {
    hide AfterAttack, CeilDiv, DecayOf, Sustain, ReleaseOf, DecayTime;
    var e := AfterAttackIs(t, c, p, ch, k, m);
    TimesMonotone(j, m, e.evsd);
    DecayTimeIs(e, m);
    DecayTimeIs(e, j);
    if j > 1 { DecayTimeIs(e, j - 1); }
    assert j == DecayTime(e.evsd, e.sl);
  }

  lemma DecayTimeIs(e: Env, m: nat)
    requires IsLevel(e.sl)
    ensures m * e.evsd < e.sl - EG_DST ==> InDecay(e, m)
    ensures m > 0 && m * e.evsd >= e.sl - EG_DST ==> !InDecay(e, m) && (e.evsd > 0 || e.sl == EG_DST)
    ensures e.evsd > 0 || e.sl == EG_DST ==>
              var j := DecayTime(e.evsd, e.sl);
              (j <= m <==> m > 0 && m * e.evsd >= e.sl - EG_DST)
              && j > 0 && (j == 1 || (j - 1) * e.evsd < e.sl - EG_DST) && j * e.evsd >= e.sl - EG_DST
  {
    hide CeilDiv;
    var d := e.sl - EG_DST;
    if e.evsd > 0 && d > 0 {
      CeilDivIs(d, e.evsd);
      if m < CeilDiv(d, e.evsd) { TimesMonotone(m, CeilDiv(d, e.evsd) - 1, e.evsd); } else { TimesMonotone(CeilDiv(d, e.evsd), m, e.evsd); }
    }
  }

  /** A held note never gets to its release by itself. */
  lemma {:induction false} HeldNote(e: Env, n: nat)
    requires InRange(e) && Phased(e) && e.held && e.evm != Release
    ensures var r := Samples(e, n); Phased(r) && r.evm != Release && r.evsr == e.evsr
    decreases n
  {
    hide Phased;
    PhasedInRange(e);
    if n > 0 {
      HeldSample(e);
      HeldNote(Step(e, Sample), n - 1);
    }
  }

  lemma PhasedInRange(e: Env)
    requires Phased(e)
    ensures InRange(e)
  {
  }

  lemma HeldSample(e: Env)
    requires Phased(e) && e.held && e.evm != Release
    ensures var r := Step(e, Sample); Phased(r) && r.held && r.evm != Release && r.evsr == e.evsr
  {
    StepKeepsPhased(e, Sample);
  }

  /** After the key of a held note is let go, its counter falls from where it is (from full level in the
      attack) by the release step, to silence. */
  lemma NoteReleases(t: Tables, c: Chip, p: Sound, ch: nat, k: nat, n: nat, m: nat)
    requires ChipOk(t, c) && IsSound(p) && ch < 9 && k < 2 && Holds(p)
    ensures var c' := Note(t, c, p, ch, k, n);
            ChipRun(t, c', [WriteReg(0xB0 + ch, p.high)] + Updates(m)).ops[2 * ch + k].env.evc
            == Min(0x2000_0000, Max(0x1000_0000, c'.ops[2 * ch + k].env.evc) + m * ReleaseOf(t, p))
  {
    hide OperatorOk, Samples, Note, CeilDiv, ChipStep, Phased, Step;
    var s := 2 * ch + k;
    var c', off := Note(t, c, p, ch, k, n), WriteReg(0xB0 + ch, p.high);
    NoteIs(t, c, p, ch, k, n);
    var e := ChipRun(t, c, Programming(p, ch, k)).ops[s].env;
    KeyedPhased(e);
    HeldNote(Step(e, KeyOn), n);
    KeyEnds(t, c', p, ch, k);
    assert ([off] + Updates(m))[1..] == Updates(m);
    UpdatesAreSamples(t, ChipStep(t, c', off), m, s);
    ReleaseCurve(c'.ops[s].env, m);
  }

  lemma KeyedPhased(e: Env)
    requires InRange(e)
    ensures var r := Step(e, KeyOn); Phased(r) && r.evm != Release && r.held == e.held && r.evsr == e.evsr
  {
  }

  /** The total level: 32 to the 0.75 dB step, and the attenuation of the pitch, at the depth that the
      upper two bits choose. */
  lemma TotalLevelWritten(t: Tables, c: Chip, ch: nat, k: nat, ksl: nat, tl: nat)
    requires ChipOk(t, c) && ch < 9 && k < 2 && ksl < 4 && tl < 64
    ensures Write(t, c, 0x40 + Offset(ch, k), ksl * 64 + tl).ops[2 * ch + k].tll
            == tl * 32 + ShiftRight(t.ksl(c.fnums[ch] / 64), if ksl == 0 then 31 else 3 - ksl)
  {
    hide Offset, ShiftRight, Write;
    OperatorWrite(t, c, 0x40, ksl * 64 + tl, ch, k);
  }

  /** In rhythm mode, with no drum on, a write keys the operators of the drums whose bits are in it: both of
      channel 6 for the bass drum, those of channel 7 for hi-hat and snare drum, of channel 8 for tom-tom
      and cymbal; and no others. */
  lemma DrumKeys(t: Tables, c: Chip, v: byte, s: nat, bit: nat)
    requires ChipOk(t, c) && c.rhythm == 0x20 && v / 0x20 % 2 == 1
    requires (s, bit) in {(12, 0x10), (13, 0x10), (14, 0x01), (15, 0x08), (16, 0x04), (17, 0x02)}
    ensures InRange(c.ops[s].env)
    ensures Write(t, c, 0xBD, v).ops[s] == if v / bit % 2 == 1 then On(c.ops[s], KeyOn) else c.ops[s]
    ensures forall i :: 0 <= i < 12 ==> Write(t, c, 0xBD, v).ops[i] == c.ops[i]
  {
    hide OperatorOk, Step;
    InRangeAt(t, c, s);
  }

  /** What the generator attenuates by, from the registers: total level, envelope, and the tremolo if the top
      bit of register 0x20 is set. */
  lemma AttenuationWritten(t: Tables, c: Chip, ch: nat, k: nat, ksl: nat, tl: nat, mul: byte, curve: seq<int32>, lfo: int32)
    requires ChipOk(t, c) && ch < 9 && k < 2 && ksl < 4 && tl < 64 && |curve| == 2 * 4096 + 1
    ensures var c' := Write(t, Write(t, c, 0x40 + Offset(ch, k), ksl * 64 + tl), 0x20 + Offset(ch, k), mul); var o := c'.ops[2 * ch + k];
            && InRange(o.env) && o.env.evc / 0x1_0000 < |curve|
            && LevelOf(o, curve, lfo)
               == ToUint32(tl * 32 + ShiftRight(t.ksl(c.fnums[ch] / 64), if ksl == 0 then 31 else 3 - ksl)
                           + curve[o.env.evc / 0x1_0000] + if mul >= 0x80 then lfo else 0)
  {
    hide Offset, ShiftRight, Write, OperatorOk;
    var c1 := Write(t, c, 0x40 + Offset(ch, k), ksl * 64 + tl);
    TotalLevelWritten(t, c, ch, k, ksl, tl);
    OperatorWrite(t, c, 0x40, ksl * 64 + tl, ch, k);
    OperatorWrite(t, c1, 0x20, mul, ch, k);
    WrittenMul(t, c1.ops[2 * ch + k], c.fnums[ch], mul);
    InRangeAt(t, Write(t, c1, 0x20 + Offset(ch, k), mul), 2 * ch + k);
  }

  lemma WrittenMul(t: Tables, o: Operator, fnum: nat, v: byte)
    requires OperatorOk(t, o, fnum)
    ensures var o' := Written(t, o, fnum, 0x20, v); o'.tll == o.tll && (o'.ams <==> v >= 0x80)
  {
  }

  /** The block and f-number of a channel: the low five bits of register 0xB0 above the byte in 0xA0. */
  lemma FrequencyWritten(t: Tables, c: Chip, ch: nat, lo: byte, hi: byte)
    requires ChipOk(t, c) && ch < 9
    ensures Write(t, Write(t, c, 0xA0 + ch, lo), 0xB0 + ch, hi).fnums[ch] == hi % 32 * 256 + lo
    ensures Write(t, Write(t, c, 0xB0 + ch, hi), 0xA0 + ch, lo).fnums[ch] == hi % 32 * 256 + lo
  {
    hide OpAfter, OperatorOk;
  }
}
