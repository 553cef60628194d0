/** The envelope generator of one YM3812 operator (src/fmopl.c), as steps on values. */
module FmoplSpec {
  import opened Machine

  const EG_OFF: int32 := 0x2000_0000
  const EG_DED: int32 := EG_OFF
  const EG_DST: int32 := 0x1000_0000
  const EG_AED: int32 := EG_DST
  const EG_AST: int32 := 0

  /** A step of the counter per sample, as the rate tables hold them. */
  type rate = x: int | 0 <= x < 0x1000_0000

  datatype Phase = Release | Decay | Attack

  /** Sustain levels: 16 steps of 3 dB, the last at 93 dB. */
  function SlTable(i: nat): (l: int32)
    requires i < 16
    ensures EG_DST <= l < EG_OFF
  {
    EG_DST + (if i == 15 then 31 else i) * 0x80_0000
  }

  predicate IsLevel(l: int) {
    EG_DST <= l < EG_OFF
  }

  /** The counter with its end point and step, the steps of the three phases, the sustain level,
      and whether it is held there. */
  datatype Env = Env(evm: Phase, evc: int32, eve: int32, evs: rate, evsa: rate, evsd: rate, evsr: rate, sl: int32, held: bool)

  datatype Event =
    | KeyOn
    | KeyOff
    | Sample
    | AttackDecay(a: rate, d: rate)
    | SustainRelease(sl: int32, r: rate)
    | Scaling(sa: rate, sd: rate, sr: rate)
    | Holding(hold: bool)
    | ForcedOff

  predicate Legal(ev: Event) {
    ev.SustainRelease? ==> IsLevel(ev.sl)
  }

  /** The counter never leaves the table of envelope curves. */
  predicate InRange(e: Env) {
    0 <= e.evc <= EG_OFF && e.eve <= EG_OFF + 1 && IsLevel(e.sl)
  }

  function Sampled(e: Env): Env
    requires InRange(e)
  {
    if e.evc + e.evs < e.eve then e.(evc := e.evc + e.evs)
    else
      match e.evm
      case Attack => e.(evm := Decay, evc := EG_DST, eve := e.sl, evs := e.evsd)
      case Decay =>
        if e.held then e.(evc := e.sl, eve := EG_DED, evs := 0)
        else e.(evm := Release, evc := e.sl, eve := EG_DED, evs := e.evsr)
      case Release => e.(evc := EG_OFF, eve := EG_OFF + 1, evs := 0)
  }

  function Step(e: Env, ev: Event): (e': Env)
    requires InRange(e) && Legal(ev)
    ensures InRange(e')
  {
    match ev
    case KeyOn => e.(evm := Attack, evs := e.evsa, evc := EG_AST, eve := EG_AED)
    case KeyOff =>
      if e.evm == Release then e
      else e.(evm := Release, evc := if e.evc / EG_DST % 2 == 0 then EG_DST else e.evc, eve := EG_DED, evs := e.evsr)
    case Sample => Sampled(e)
    case AttackDecay(a, d) =>
      e.(evsa := a, evsd := d, evs := if e.evm == Attack then a else if e.evm == Decay then d else e.evs)
    case SustainRelease(sl, r) =>
      e.(sl := sl, evsr := r, eve := if e.evm == Decay then sl else e.eve, evs := if e.evm == Release then r else e.evs)
    case Scaling(sa, sd, sr) => e.(evsa := sa, evsd := sd, evsr := sr)
    case Holding(hold) => e.(held := hold)
    case ForcedOff => e.(evc := EG_OFF, eve := EG_OFF + 1, evs := 0)
  }

  function Run(e: Env, evs: seq<Event>): (e': Env)
    requires InRange(e) && forall i :: 0 <= i < |evs| ==> Legal(evs[i])
    ensures InRange(e')
    decreases |evs|
  {
    if evs == [] then e else Run(Step(e, evs[0]), evs[1..])
  }

  function Samples(e: Env, n: nat): (e': Env)
    requires InRange(e)
    ensures InRange(e')
    decreases n
  {
    if n == 0 then e else Samples(Step(e, Sample), n - 1)
  }
}
