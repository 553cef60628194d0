/** The shape of envelopes: what samples do between the events of src/fmopl.c. */
module FmoplCurve {
  import opened Machine
  import opened FmoplSpec

  lemma {:induction false} SamplesAdd(e: Env, m: nat, n: nat)
    requires InRange(e)
    ensures Samples(e, m + n) == Samples(Samples(e, m), n)
    decreases m
  {
    if m > 0 { SamplesAdd(Step(e, Sample), m - 1, n); }
  }

  /** Until the end point is reached the counter is a straight line. */
  lemma {:induction false} Line(e: Env, n: nat)
    requires InRange(e) && (n > 0 ==> e.evc + n * e.evs < e.eve)
    ensures Samples(e, n) == e.(evc := e.evc + n * e.evs)
    decreases n
  {
    hide Step;
    if n > 0 {
      TimesMonotone(1, n, e.evs);
      var e1 := Step(e, Sample);
      assert e1 == e.(evc := e.evc + e.evs) by { SampleBelow(e); }
      assert (n - 1) * e.evs == n * e.evs - e.evs;
      Line(e1, n - 1);
    }
  }

  lemma SampleBelow(e: Env)
    requires InRange(e) && e.evc + e.evs < e.eve
    ensures Step(e, Sample) == e.(evc := e.evc + e.evs)
  {
  }

  /** The sample that reaches the end point, `p` being the way until then. */
  lemma LineEnds(e: Env, t: nat, p: nat)
    requires InRange(e) && t > 0 && p == (t - 1) * e.evs
    requires (t > 1 ==> e.evc + p < e.eve) && e.evc + p + e.evs >= e.eve
    ensures e.evc + p <= EG_OFF && Samples(e, t) == Sampled(e.(evc := e.evc + p))
  {
    hide Step;
    Line(e, t - 1);
    SamplesAdd(e, t - 1, 1);
    var e1 := Samples(e, t - 1);
    assert Samples(e1, 1) == Samples(Step(e1, Sample), 0);
    SampleIs(e1);
  }

  lemma SampleIs(e: Env)
    requires InRange(e)
    ensures Step(e, Sample) == Sampled(e)
  {
  }

  /** In release and not off yet, or off. */
  predicate Releasing(e: Env) {
    && InRange(e) && e.evm == Release && e.evc >= EG_DST
    && ((e.eve == EG_DED && e.evc < EG_OFF) || (e.eve == EG_OFF + 1 && e.evc == EG_OFF && e.evs == 0))
  }

  /** A release falls in a straight line and stays off. */
  lemma {:induction false} ReleaseLine(e: Env, n: nat)
    requires Releasing(e)
    ensures Releasing(Samples(e, n)) && Samples(e, n).evc == Min(EG_OFF, e.evc + n * e.evs)
    decreases n
  {
    hide Step;
    if n > 0 {
      var e1 := Step(e, Sample);
      ReleasingSample(e);
      ReleaseLine(e1, n - 1);
      assert n * e.evs == (n - 1) * e.evs + e.evs;
      TimesMonotone(0, n - 1, e.evs);
    }
  }

  lemma ReleasingSample(e: Env)
    requires Releasing(e)
    ensures var e1 := Step(e, Sample);
            Releasing(e1) && e1.evc == Min(EG_OFF, e.evc + e.evs) && e1.evs == if e1.evc < EG_OFF then e.evs else 0
  {
  }

  /** Counter and end point as their phase wants them. */
  predicate Phased(e: Env) {
    && InRange(e)
    && match e.evm
       case Attack => 0 <= e.evc < EG_AED && e.eve == EG_AED
       case Decay => IsLevel(e.evc) && (e.eve == EG_DED || e.eve == e.sl)
       case Release => e.evc >= EG_DST && if e.evc < EG_OFF then e.eve == EG_DED else e.eve == EG_OFF + 1
  }

  /** Every event keeps that form, except that the last step of a chip reset, which forces the counter
      off, needs the note to be over. */
  lemma StepKeepsPhased(e: Env, ev: Event)
    requires Phased(e) && Legal(ev)
    ensures Phased(Step(e, ev)) <==> (ev == ForcedOff ==> e.evm == Release)
  {
  }

  /** What a key-off leaves: the level at which the release begins. */
  function ReleaseFrom(e: Env): int {
    if e.evc < EG_DST then EG_DST else e.evc
  }

  /** From key-off on: a straight line from the level of that moment (full level in the attack) to
      silence, at the release step. */
  lemma ReleaseCurve(e: Env, n: nat)
    requires Phased(e) && e.evm != Release
    ensures var r := Samples(Step(e, KeyOff), n);
            r.evm == Release && r.evc == Min(EG_OFF, ReleaseFrom(e) + n * e.evsr)
  {
    hide Samples;
    ReleaseLine(Step(e, KeyOff), n);
  }

  /** When silence comes, to the sample; without a release step it never does. */
  lemma SilentIff(e: Env, n: nat)
    requires Phased(e) && e.evm != Release
    ensures Samples(Step(e, KeyOff), n).evc == EG_OFF <==>
              e.evsr > 0 && n >= CeilDiv(EG_OFF - ReleaseFrom(e), e.evsr)
  {
    hide Samples, Step, CeilDiv;
    ReleaseCurve(e, n);
    var way := EG_OFF - ReleaseFrom(e);
    if e.evsr > 0 {
      CeilDivIs(way, e.evsr);
      if n >= CeilDiv(way, e.evsr) { TimesMonotone(CeilDiv(way, e.evsr), n, e.evsr); }
      else { TimesMonotone(n, CeilDiv(way, e.evsr) - 1, e.evsr); }
    }
  }

  /** So it takes no longer than a release from full level. */
  lemma SilentInTime(e: Env, n: nat)
    requires Phased(e) && e.evm != Release && e.evsr > 0 && n >= CeilDiv(EG_OFF - EG_DST, e.evsr)
    ensures Samples(Step(e, KeyOff), n).evc == EG_OFF
  {
    hide Samples, Step, CeilDiv;
    ReleaseCurve(e, n);
    CeilDivIs(EG_OFF - EG_DST, e.evsr);
    TimesMonotone(CeilDiv(EG_OFF - EG_DST, e.evsr), n, e.evsr);
  }

  /** A sustaining slot. */
  predicate Held(e: Env) {
    InRange(e) && e.evm == Decay && e.evc == e.sl && e.eve == EG_DED && e.evs == 0
  }

  /** It stays where it is. */
  lemma HeldStays(e: Env, n: nat)
    requires Held(e)
    ensures Samples(e, n) == e
  {
    Line(e, n);
  }

  /** While held, a new sustain level is taken up if it is at least as loud, and ignored otherwise. */
  lemma HeldNewLevel(e: Env, sl: int32, r: rate, n: nat)
    requires Held(e) && e.held && IsLevel(sl) && n > 0
    ensures Samples(Step(e, SustainRelease(sl, r)), n).evc == Min(e.sl, sl)
  {
    var e1 := Step(e, SustainRelease(sl, r));
    if e1.evc < sl {
      Line(e1, n);
    } else {
      var e2 := Step(e1, Sample);
      HeldStays(e2, n - 1);
    }
  }

  /** While held, the write of a decay rate sets the counter moving again; it stays at its level
      exactly if the rate is zero, or leads past the end in one step. */
  lemma HeldNewRate(e: Env, a: rate, d: rate)
    requires Held(e) && e.held
    ensures (forall n: nat :: Samples(Step(e, AttackDecay(a, d)), n).evc == e.sl) <==> d == 0 || e.sl + d >= EG_OFF
  {
    hide Samples;
    var e1 := Step(e, AttackDecay(a, d));
    if 0 < d < EG_OFF - e.sl {
      Line(e1, 1);
      assert Samples(e1, 1).evc != e.sl;
    } else {
      forall n: nat
        ensures Samples(e1, n).evc == e.sl
      {
        if d == 0 || n == 0 {
          Line(e1, n);
        } else {
          SamplesAdd(e1, 1, n - 1);
          LineEnds(e1, 1, 0);
          HeldStays(Samples(e1, 1), n - 1);
        }
      }
    }
  }

  // The whole envelope of a note

  /** Samples until the attack is over. */
  function AttackTime(a: rate): nat
    requires a > 0
  {
    CeilDiv(EG_AED, a)
  }

  /** Samples from there until the sustain level. */
  function DecayTime(d: rate, sl: int32): nat
    requires IsLevel(sl) && (d > 0 || sl == EG_DST)
  {
    if sl == EG_DST then 1 else CeilDiv(sl - EG_DST, d)
  }

  /** The counter `n` samples after key-on. */
  function Curve(e: Env, n: nat): int
    requires IsLevel(e.sl)
  {
    if e.evsa == 0 || n < AttackTime(e.evsa) then n * e.evsa
    else
      var k := n - AttackTime(e.evsa);
      if InDecay(e, k) then EG_DST + k * e.evsd
      else if e.held then e.sl
      else Min(EG_OFF, e.sl + (k - DecayTime(e.evsd, e.sl)) * e.evsr)
  }

  /** A line of length `d`, followed for `n` steps of `s`, is not over before its time. */
  lemma BeforeEnd(n: nat, s: nat, d: nat)
    requires d > 0 && (s == 0 || n < CeilDiv(d, s))
    ensures n * s < d
  {
    hide CeilDiv;
    if s > 0 {
      CeilDivIs(d, s);
      TimesMonotone(n, CeilDiv(d, s) - 1, s);
    }
  }

  lemma AtEnd(s: nat, d: nat)
    requires s > 0 && d > 0
    ensures var t := CeilDiv(d, s); t > 0 && (t - 1) * s < d <= (t - 1) * s + s
  {
    hide CeilDiv;
    CeilDivIs(d, s);
    assert (CeilDiv(d, s) - 1) * s + s == CeilDiv(d, s) * s;
  }

  lemma AttackPart(e: Env, n: nat)
    requires InRange(e) && (e.evsa == 0 || n < AttackTime(e.evsa))
    ensures n * e.evsa < EG_AED && Samples(Step(e, KeyOn), n) == Step(e, KeyOn).(evc := n * e.evsa)
  {
    hide CeilDiv, Samples;
    BeforeEnd(n, e.evsa, EG_AED);
    Line(Step(e, KeyOn), n);
  }

  lemma AttackOver(e: Env)
    requires InRange(e) && e.evsa > 0
    ensures Samples(Step(e, KeyOn), AttackTime(e.evsa)) == e.(evm := Decay, evc := EG_DST, eve := e.sl, evs := e.evsd)
  {
    hide CeilDiv, Samples;
    AtEnd(e.evsa, EG_AED);
    var t := AttackTime(e.evsa);
    LineEnds(Step(e, KeyOn), t, (t - 1) * e.evsa);
  }

  predicate DecayBegins(e: Env) {
    InRange(e) && e.evm == Decay && e.evc == EG_DST && e.eve == e.sl && e.evs == e.evsd
  }

  predicate InDecay(e: Env, k: nat)
    requires IsLevel(e.sl)
  {
    (e.evsd == 0 && e.sl > EG_DST) || k < DecayTime(e.evsd, e.sl)
  }

  lemma DecayPart(e: Env, k: nat)
    requires DecayBegins(e) && InDecay(e, k)
    ensures Samples(e, k).evc == EG_DST + k * e.evsd
  {
    hide CeilDiv, Samples;
    if e.sl > EG_DST { BeforeEnd(k, e.evsd, e.sl - EG_DST); }
    Line(e, k);
  }

  lemma DecayOver(e: Env)
    requires DecayBegins(e) && (e.evsd > 0 || e.sl == EG_DST)
    ensures Samples(e, DecayTime(e.evsd, e.sl)) ==
              if e.held then e.(evc := e.sl, eve := EG_DED, evs := 0)
              else e.(evm := Release, evc := e.sl, eve := EG_DED, evs := e.evsr)
  {
    hide CeilDiv, Samples;
    var t := DecayTime(e.evsd, e.sl);
    if e.sl > EG_DST {
      AtEnd(e.evsd, e.sl - EG_DST);
      LineEnds(e, t, (t - 1) * e.evsd);
    } else {
      LineEnds(e, 1, 0);
    }
  }

  /** The envelope of a note that is not written to: attack, decay, then sustain or release and
      silence, each a straight line, sample by sample. */
  lemma EnvelopeIsCurve(e: Env, n: nat)
    requires InRange(e)
    ensures Samples(Step(e, KeyOn), n).evc == Curve(e, n)
  {
    hide CeilDiv, Samples, Step;
    var on := Step(e, KeyOn);
    if e.evsa == 0 || n < AttackTime(e.evsa) {
      AttackPart(e, n);
    } else {
      var t := AttackTime(e.evsa);
      AttackOver(e);
      SamplesAdd(on, t, n - t);
      DecayOn(Samples(on, t), n - t);
    }
  }

  lemma DecayOn(e: Env, k: nat)
    requires DecayBegins(e)
    ensures Samples(e, k).evc ==
              if InDecay(e, k) then EG_DST + k * e.evsd
              else if e.held then e.sl
              else Min(EG_OFF, e.sl + (k - DecayTime(e.evsd, e.sl)) * e.evsr)
  {
    hide CeilDiv, Samples, Step;
    if InDecay(e, k) {
      DecayPart(e, k);
    } else {
      var t := DecayTime(e.evsd, e.sl);
      DecayOver(e);
      SamplesAdd(e, t, k - t);
      if e.held {
        HeldStays(Samples(e, t), k - t);
      } else {
        ReleaseLine(Samples(e, t), k - t);
      }
    }
  }

  /** The order of the phases: attack, decay, sustain or release, off. */
  function Rank(e: Env): nat {
    match e.evm
    case Attack => 0
    case Decay => if e.evs == 0 && e.eve == EG_DED then 2 else 1
    case Release => if e.evc == EG_OFF then 3 else 2
  }

  /** In decay, on the way to the sustain level or held there. */
  predicate OnCourse(e: Env) {
    InRange(e) && Phased(e) && (e.evm == Decay ==> e.evc <= e.sl && (e.eve == e.sl || Held(e)))
  }

  lemma SampleAdvances(e: Env)
    requires OnCourse(e)
    ensures var e1 := Step(e, Sample); OnCourse(e1) && Rank(e) <= Rank(e1) && e.evc <= e1.evc
  {
  }

  /** Samples alone never lead back to an earlier phase, and the counter never falls: after the
      attack the note only gets quieter. */
  lemma {:induction false} SamplesAdvance(e: Env, n: nat)
    requires OnCourse(e)
    ensures var e1 := Samples(e, n); OnCourse(e1) && Rank(e) <= Rank(e1) && e.evc <= e1.evc
    decreases n
  {
    hide Step, Rank, Phased;
    if n > 0 {
      SampleAdvances(e);
      SamplesAdvance(Step(e, Sample), n - 1);
    }
  }
}
