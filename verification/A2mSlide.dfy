/** Frequency slides of the Adlib Tracker II player (src/a2m-v2.cpp): words of octave and f-number,
    and what repeated tone portamento does to them. */
module A2mSlide {
  import opened Machine

  const FREQ_START: nat := 0x156
  const FREQ_END: nat := 0x2AE
  const FREQ_RANGE: nat := FREQ_END - FREQ_START
  const LOWEST: nat := FREQ_START
  const HIGHEST: nat := 7 * 0x400 + FREQ_END

  function Octave(w: uint16): (o: nat)
    ensures o < 8
  {
    w / 0x400 % 8
  }

  function Fnum(w: uint16): (f: nat)
    ensures f < 0x400
  {
    w % 0x400
  }

  /** A frequency without key bit whose f-number lies in its octave. */
  predicate Normal(w: uint16) {
    w < 0x2000 && FREQ_START <= Fnum(w) <= FREQ_END
  }

  /** The place of a frequency on one scale through all octaves. */
  function Height(w: uint16): nat {
    Octave(w) * FREQ_RANGE + Fnum(w)
  }

  function NFreq(note: nat): (w: uint16)
    requires note < 0x100
  {
    if note >= 12 * 8 then 7 * 0x400 + FREQ_END else note / 12 * 0x400 + InOctave(note % 12)
  }

  function InOctave(k: nat): (f: nat)
    requires k < 12
    ensures FREQ_START < f < FREQ_END
    ensures forall j :: 0 <= j < k ==> [0x157, 0x16b, 0x181, 0x198, 0x1b0, 0x1ca, 0x1e5, 0x202, 0x220, 0x241, 0x263, 0x287][j] < f
  {
    [0x157, 0x16b, 0x181, 0x198, 0x1b0, 0x1ca, 0x1e5, 0x202, 0x220, 0x241, 0x263, 0x287][k]
  }

  function ShiftUp(freq: uint16, shift: uint16): uint16 {
    var oc, fr := Octave(freq), ToUint16(Fnum(freq) + shift);
    if fr >= FREQ_END then
      if oc == 7 then ToUint16(oc * 0x400 + FREQ_END) else ToUint16((oc + 1) * 0x400 + ToUint16(fr - FREQ_RANGE))
    else ToUint16(oc * 0x400 + fr)
  }

  function ShiftDown(freq: uint16, shift: uint16): uint16 {
    var oc, fr := Octave(freq), ToUint16(Fnum(freq) - shift);
    if fr <= FREQ_START then
      if oc == 0 then ToUint16(oc * 0x400 + FREQ_START) else ToUint16((oc - 1) * 0x400 + ToUint16(fr + FREQ_RANGE))
    else ToUint16(oc * 0x400 + fr)
  }

  /** Exactly a saturating addition. */
  predicate AddsExactly(freq: uint16, shift: uint16) {
    var r := ShiftUp(freq, shift);
    Normal(r) && Height(r) == Min(Height(freq) + shift, Height(HIGHEST))
  }

  predicate SubtractsExactly(freq: uint16, shift: uint16) {
    var r := ShiftDown(freq, shift);
    Normal(r) && Height(r) == Max(Height(freq) - shift, Height(LOWEST))
  }

  /** What a caller can check before sliding up: no more than one octave is crossed (two ways to
      say so, as the last octave saturates), or the carry happens to end at the top. */
  predicate UpFits(freq: uint16, shift: uint16) {
    || (Octave(freq) == 7 && Fnum(freq) + shift < 0x1_0000)
    || Fnum(freq) + shift <= FREQ_END + FREQ_RANGE
    || (Octave(freq) + 1) * 0x400 + Fnum(freq) + shift - FREQ_RANGE == HIGHEST
  }

  /** The f-number does not pass zero; or it does, and what is left is the bottom by chance or by
      the 16-bit wrap. */
  predicate DownFits(freq: uint16, shift: uint16) {
    || shift <= Fnum(freq)
    || freq - shift == LOWEST
    || (Octave(freq) == 0 && shift - Fnum(freq) >= 0x1_0000 - FREQ_START)
  }

  lemma Parts(o: nat, f: nat)
    requires o < 8 && f < 0x400
    ensures Octave(o * 0x400 + f) == o && Fnum(o * 0x400 + f) == f && o * 0x400 + f < 0x2000
  {
  }

  lemma OfParts(w: uint16)
    requires w < 0x2000
    ensures w == Octave(w) * 0x400 + Fnum(w)
  {
  }

  lemma ToUint16Is(x: int)
    ensures 0 <= x < 0x1_0000 ==> ToUint16(x) == x
    ensures 0x1_0000 <= x < 0x2_0000 ==> ToUint16(x) == x - 0x1_0000
    ensures -0x1_0000 <= x < 0 ==> ToUint16(x) == x + 0x1_0000
  {
  }

  /** ShiftUp without wrap-around. */
  lemma UpCases(freq: uint16, shift: uint16)
    ensures var oc, sum, r := Octave(freq), Fnum(freq) + shift, ShiftUp(freq, shift);
            && (sum < FREQ_END ==> r == oc * 0x400 + sum)
            && (FREQ_END <= sum < 0x1_0000 && oc == 7 ==> r == HIGHEST)
            && (FREQ_END <= sum < 0x1_0000 && oc < 7 ==>
                  var c := (oc + 1) * 0x400 + sum - FREQ_RANGE; r == if c < 0x1_0000 then c else c - 0x1_0000)
            && (sum >= 0x1_0000 ==>
                  && sum - 0x1_0000 < 0x400
                  && (sum - 0x1_0000 < FREQ_END ==> r == oc * 0x400 + sum - 0x1_0000)
                  && (sum - 0x1_0000 >= FREQ_END && oc == 7 ==> r == HIGHEST)
                  && (sum - 0x1_0000 >= FREQ_END && oc < 7 ==> r == (oc + 1) * 0x400 + sum - 0x1_0000 - FREQ_RANGE))
  {
    hide Octave, Fnum, ToUint16;
    var oc, sum := Octave(freq), Fnum(freq) + shift;
    ToUint16Is(sum);
    ToUint16Is(ToUint16(sum) - FREQ_RANGE);
    ToUint16Is((oc + 1) * 0x400 + ToUint16(sum) - FREQ_RANGE);
    ToUint16Is(oc * 0x400 + ToUint16(sum));
    ToUint16Is(HIGHEST);
  }

  lemma DownCases(freq: uint16, shift: uint16)
    ensures var oc, dif, r := Octave(freq), Fnum(freq) - shift, ShiftDown(freq, shift);
            && (dif > FREQ_START ==> r == oc * 0x400 + dif)
            && (0 <= dif <= FREQ_START ==> r == if oc == 0 then LOWEST else (oc - 1) * 0x400 + dif + FREQ_RANGE)
            && (dif < 0 ==>
                  var left := dif + 0x1_0000;
                  if left <= FREQ_START then r == if oc == 0 then LOWEST else (oc - 1) * 0x400 + left + FREQ_RANGE
                  else r == if oc * 0x400 + left < 0x1_0000 then oc * 0x400 + left else oc * 0x400 + dif)
  {
    hide Octave, Fnum, ToUint16;
    var oc, dif := Octave(freq), Fnum(freq) - shift;
    ToUint16Is(dif);
    ToUint16Is(ToUint16(dif) + FREQ_RANGE);
    ToUint16Is((oc - 1) * 0x400 + ToUint16(dif) + FREQ_RANGE);
    ToUint16Is(oc * 0x400 + ToUint16(dif));
    ToUint16Is(LOWEST);
  }

  /** A normal frequency is given by its parts. */
  lemma NormalParts(o: nat, f: nat)
    requires o < 8 && FREQ_START <= f <= FREQ_END
    ensures Normal(o * 0x400 + f) && Height(o * 0x400 + f) == o * FREQ_RANGE + f
  {
    Parts(o, f);
  }

  lemma NormalHeight(w: uint16)
    requires Normal(w)
    ensures w == Octave(w) * 0x400 + Fnum(w) && Height(w) == Octave(w) * FREQ_RANGE + Fnum(w)
    ensures FREQ_START <= Fnum(w) <= FREQ_END && Octave(w) < 8
  {
    OfParts(w);
  }

  /** The slide up is a saturating addition for these shifts and for no others. */
  lemma UpIsAdditionIff(freq: uint16, shift: uint16)
    requires Normal(freq)
    ensures AddsExactly(freq, shift) <==> UpFits(freq, shift)
  {
    hide Octave, Fnum, Normal, Height, ShiftUp;
    var oc, fr, r := Octave(freq), Fnum(freq), ShiftUp(freq, shift);
    NormalHeight(freq);
    NormalParts(7, FREQ_END);
    UpCases(freq, shift);
    if fr + shift < FREQ_END {
      NormalParts(oc, fr + shift);
    } else if fr + shift < 0x1_0000 && oc < 7 && fr + shift <= FREQ_END + FREQ_RANGE {
      NormalParts(oc + 1, fr + shift - FREQ_RANGE);
    } else if Normal(r) {
      NormalHeight(r);
    }
  }

  lemma DownIsSubtractionIff(freq: uint16, shift: uint16)
    requires Normal(freq)
    ensures SubtractsExactly(freq, shift) <==> DownFits(freq, shift)
  {
    hide Octave, Fnum, Normal, Height, ShiftDown;
    var oc, fr, r := Octave(freq), Fnum(freq), ShiftDown(freq, shift);
    NormalHeight(freq);
    NormalParts(0, FREQ_START);
    DownCases(freq, shift);
    if FREQ_START < fr - shift {
      NormalParts(oc, fr - shift);
    } else if 0 <= fr - shift && oc > 0 {
      NormalParts(oc - 1, fr - shift + FREQ_RANGE);
    } else if Normal(r) {
      NormalHeight(r);
    }
  }

  // Portamento

  /** portamento_up and portamento_down on the 13 frequency bits. */
  function SlideUp(freq: uint16, slide: uint16, limit: uint16): uint16 {
    if freq == 0 then freq else Min(ShiftUp(freq, slide), limit)
  }

  function SlideDown(freq: uint16, slide: uint16, limit: uint16): uint16 {
    if freq == 0 then freq else Max(ShiftDown(freq, slide), limit)
  }

  /** A new frequency under the bits above it. */
  function Kept(w: uint16, freq: uint16): uint16 {
    w / 0x2000 * 0x2000 + freq % 0x2000
  }

  /** One tick of tone portamento. */
  function Tone(w: uint16, target: uint16, speed: uint16): uint16 {
    var freq := w % 0x2000;
    if freq > target then Kept(w, SlideDown(freq, speed, target))
    else if freq < target then Kept(w, SlideUp(freq, speed, target))
    else w
  }

  function Ticks(w: uint16, target: uint16, speed: uint16, n: nat): uint16
    decreases n
  {
    if n == 0 then w else Ticks(Tone(w, target, speed), target, speed, n - 1)
  }

  /** The height at which slides meet `t`, whose f-number may lie outside its octave. */
  function Meet(t: uint16): nat {
    Octave(t) * FREQ_RANGE + Max(FREQ_START, Min(Fnum(t), FREQ_END))
  }

  function Distance(w: uint16, t: uint16): nat {
    Max(Meet(t) - Height(w), Height(w) - Meet(t))
  }

  /** The ticks from a frequency to its target. */
  function TicksNeeded(w: uint16, t: uint16, speed: nat): nat
    requires speed > 0
  {
    if w == t then 0 else Max(1, CeilDiv(Distance(w, t), speed))
  }

  lemma ToneKeepsUpperBits(w: uint16, target: uint16, speed: uint16)
    ensures Tone(w, target, speed) / 0x2000 == w / 0x2000
    ensures Tone(w, target, speed) % 0x2000 == Tone(w % 0x2000, target, speed)
  {
    hide SlideUp, SlideDown, Kept;
    var f := w % 0x2000;
    KeptParts(w, SlideDown(f, speed, target));
    KeptParts(w, SlideUp(f, speed, target));
    KeptParts(f, SlideDown(f, speed, target));
    KeptParts(f, SlideUp(f, speed, target));
  }

  lemma KeptParts(w: uint16, freq: uint16)
    ensures Kept(w, freq) / 0x2000 == w / 0x2000 && Kept(w, freq) % 0x2000 == freq % 0x2000
    ensures w < 0x2000 ==> Kept(w, freq) == freq % 0x2000
  {
  }

  lemma {:induction false} TicksKeepUpperBits(w: uint16, target: uint16, speed: uint16, n: nat)
    ensures Ticks(w, target, speed, n) / 0x2000 == w / 0x2000
    ensures Ticks(w, target, speed, n) % 0x2000 == Ticks(w % 0x2000, target, speed, n)
    decreases n
  {
    hide Tone;
    if n > 0 {
      ToneKeepsUpperBits(w, target, speed);
      TicksKeepUpperBits(Tone(w, target, speed), target, speed, n - 1);
    }
  }

  lemma ToneOf(w: uint16, t: uint16, s: uint16)
    requires w < 0x2000
    ensures Tone(w, t, s) ==
              if w > t then SlideDown(w, s, t) % 0x2000 else if w < t then SlideUp(w, s, t) % 0x2000 else w
  {
    hide ShiftUp, ShiftDown;
  }

  lemma TargetParts(t: uint16)
    requires t < 0x2000
    ensures t == Octave(t) * 0x400 + Fnum(t) && Octave(t) < 8 && Fnum(t) < 0x400
    ensures Meet(t) == Octave(t) * FREQ_RANGE + Max(FREQ_START, Min(Fnum(t), FREQ_END))
  {
  }

  lemma UpLands(w: uint16, t: uint16, s: uint16)
    requires Normal(w) && w < t <= HIGHEST && 0 < s < 0x100
    ensures var sum := Fnum(w) + s;
            Tone(w, t, s) ==
              Min(t, if sum < FREQ_END then w + s else if Octave(w) == 7 then HIGHEST else w + s + 0x400 - FREQ_RANGE)
  {
    hide Octave, Fnum, Normal, Height, ShiftUp, ShiftDown, Tone, Meet;
    NormalHeight(w);
    ToneOf(w, t, s);
    UpCases(w, s);
  }

  /** The arithmetic of a step up, from octave `oc` and f-number `fr` towards `to` and `tf`. */
  lemma UpArithmetic(oc: nat, fr: nat, to: nat, tf: nat, s: nat)
    requires oc < 8 && to < 8 && FREQ_START <= fr <= FREQ_END && tf < 0x400 && 0 < s < 0x100
    requires oc * 0x400 + fr < to * 0x400 + tf && LOWEST <= to * 0x400 + tf <= HIGHEST
    ensures var w, t := oc * 0x400 + fr, to * 0x400 + tf;
            var r := Min(t, if fr + s < FREQ_END then w + s else if oc == 7 then HIGHEST else w + s + 0x400 - FREQ_RANGE);
            var way := to * FREQ_RANGE + Max(FREQ_START, Min(tf, FREQ_END)) - (oc * FREQ_RANGE + fr);
            && w < r <= t && way >= 0
            && if way <= s then r == t
               else r < t && (fr + s < FREQ_END || oc < 7)
                    && r == if fr + s < FREQ_END then oc * 0x400 + (fr + s) else (oc + 1) * 0x400 + (fr + s - FREQ_RANGE)
  {
  }

  lemma DownArithmetic(oc: nat, fr: nat, to: nat, tf: nat, s: nat)
    requires oc < 8 && to < 8 && FREQ_START <= fr <= FREQ_END && tf < 0x400 && 0 < s < 0x100
    requires oc * 0x400 + fr > to * 0x400 + tf && LOWEST <= to * 0x400 + tf <= HIGHEST
    ensures var w, t := oc * 0x400 + fr, to * 0x400 + tf;
            var r := Max(t, if fr - s > FREQ_START then w - s else if oc == 0 then LOWEST else w - s - 0x400 + FREQ_RANGE);
            var way := oc * FREQ_RANGE + fr - (to * FREQ_RANGE + Max(FREQ_START, Min(tf, FREQ_END)));
            && t <= r < w && way >= 0
            && if way <= s then r == t
               else r > t && (fr - s > FREQ_START || oc > 0)
                    && r == if fr - s > FREQ_START then oc * 0x400 + (fr - s) else (oc - 1) * 0x400 + (fr - s + FREQ_RANGE)
  {
  }

  lemma DownLands(w: uint16, t: uint16, s: uint16)
    requires Normal(w) && w > t && 0 < s < 0x100
    ensures var dif := Fnum(w) - s;
            Tone(w, t, s) ==
              Max(t, if dif > FREQ_START then w - s else if Octave(w) == 0 then LOWEST else w - s - 0x400 + FREQ_RANGE)
  {
    hide Octave, Fnum, Normal, Height, ShiftUp, ShiftDown, Tone, Meet;
    NormalHeight(w);
    ToneOf(w, t, s);
    DownCases(w, s);
  }

  /** A tick below the target: the height grows by the speed, or the target is met. */
  lemma TickUp(w: uint16, t: uint16, s: uint16)
    requires Normal(w) && w < t && LOWEST <= t <= HIGHEST && 0 < s < 0x100
    ensures var r := Tone(w, t, s); w < r <= t
    ensures Meet(t) >= Height(w)
    ensures var r := Tone(w, t, s);
            if Meet(t) - Height(w) <= s then r == t else Normal(r) && Height(r) == Height(w) + s && r < t
  {
    hide Octave, Fnum, Normal, Height, Tone, Meet, Max, Min;
    NormalHeight(w);
    TargetParts(t);
    UpLands(w, t, s);
    var oc, sum := Octave(w), Fnum(w) + s;
    UpArithmetic(oc, Fnum(w), Octave(t), Fnum(t), s);
    if sum < FREQ_END { NormalParts(oc, sum); } else if oc < 7 { NormalParts(oc + 1, sum - FREQ_RANGE); }
  }

  lemma TickDown(w: uint16, t: uint16, s: uint16)
    requires Normal(w) && w > t && LOWEST <= t <= HIGHEST && 0 < s < 0x100
    ensures var r := Tone(w, t, s); t <= r < w
    ensures Meet(t) <= Height(w)
    ensures var r := Tone(w, t, s);
            if Height(w) - Meet(t) <= s then r == t else Normal(r) && Height(r) == Height(w) - s && r > t
  {
    hide Octave, Fnum, Normal, Height, Tone, Meet, Max, Min;
    NormalHeight(w);
    TargetParts(t);
    DownLands(w, t, s);
    var oc, dif := Octave(w), Fnum(w) - s;
    DownArithmetic(oc, Fnum(w), Octave(t), Fnum(t), s);
    if dif > FREQ_START { NormalParts(oc, dif); } else if oc > 0 { NormalParts(oc - 1, dif + FREQ_RANGE); }
  }

  /** Tone portamento at work: before its time the frequency is exactly `n * speed` nearer and not
      past the target, from then on it is the target. */
  lemma {:induction false} ToneConverges(w: uint16, t: uint16, s: uint16, n: nat)
    requires Normal(w) && LOWEST <= t <= HIGHEST && 0 < s < 0x100
    ensures var r := Ticks(w, t, s, n);
            if n < TicksNeeded(w, t, s)
            then r != t && Normal(r) && (r < t <==> w < t) && Distance(r, t) == Distance(w, t) - n * s
            else r == t
    decreases n
  {
    hide Tone, Octave, Fnum, Meet, Height;
    if n > 0 {
      if w == t {
        AtTarget(t, s, n);
      } else {
        if w < t { TickUp(w, t, s); } else { TickDown(w, t, s); }
        var r := Tone(w, t, s);
        if r == t {
          AtTarget(t, s, n - 1);
          CeilOfNear(Distance(w, t), s);
        } else {
          ToneConverges(r, t, s, n - 1);
          CeilStep(Distance(w, t), s);
        }
      }
    }
  }

  /** The same for a channel's whole word: on arrival, and not before, it is the target under the
      bits (key-on among them) that were there at the start. */
  lemma ToneArrives(w: uint16, t: uint16, s: uint16, n: nat)
    requires Normal(w % 0x2000) && LOWEST <= t <= HIGHEST && 0 < s < 0x100
    ensures Ticks(w, t, s, n) == w / 0x2000 * 0x2000 + t <==> n >= TicksNeeded(w % 0x2000, t, s)
    ensures Ticks(w, t, s, n) / 0x2000 == w / 0x2000
  {
    hide Normal, Ticks, Tone, TicksNeeded;
    TicksKeepUpperBits(w, t, s, n);
    ToneConverges(w % 0x2000, t, s, n);
  }

  lemma {:induction false} AtTarget(t: uint16, s: uint16, n: nat)
    requires t < 0x2000
    ensures Ticks(t, t, s, n) == t
  {
    hide SlideUp, SlideDown;
    if n > 0 { AtTarget(t, s, n - 1); }
  }

  lemma CeilStep(d: nat, s: nat)
    requires d > s > 0
    ensures CeilDiv(d, s) == CeilDiv(d - s, s) + 1 && CeilDiv(d - s, s) >= 1
  {
    var q := (d - s + s - 1) / s;
    assert d - 1 == s * q + (d - 1) % s;
    Quotient(d + s - 1, s, q + 1);
    Quotient(d - 1, s, q);
  }

  lemma Quotient(x: nat, s: nat, q: nat)
    requires s > 0 && s * q <= x < s * q + s
    ensures x / s == q
  {
    var d := x / s - q;
    assert x == s * (x / s) + x % s;
    assert s * d == x - x % s - s * q;
  }

  lemma CeilOfNear(d: nat, s: nat)
    requires d <= s && s > 0
    ensures CeilDiv(d, s) <= 1
  {
  }

  /** Targets beyond either end of the scale act like the end itself. */
  lemma TargetBeyondEnds(w: uint16, t: uint16, s: uint16)
    requires Normal(w) && s < 0x100
    ensures LOWEST <= w <= HIGHEST
    ensures t > HIGHEST ==> Tone(w, t, s) == Tone(w, HIGHEST, s)
    ensures t < LOWEST ==> Tone(w, t, s) == Tone(w, LOWEST, s)
  {
    hide Octave, Fnum, Normal, Height, ShiftUp, ShiftDown, Tone;
    NormalHeight(w);
    ToneOf(w, t, s);
    ToneOf(w, HIGHEST, s);
    ToneOf(w, LOWEST, s);
    UpCases(w, s);
    DownCases(w, s);
  }

  /** Every frequency on the way is normal, or is the target. */
  lemma {:induction false} BeyondEndsNeverMet(w: uint16, t: uint16, s: uint16, n: nat)
    requires Normal(w) && 0 < s < 0x100 && !(LOWEST <= t <= HIGHEST)
    ensures Normal(Ticks(w, t, s, n)) && Ticks(w, t, s, n) != t
    decreases n
  {
    hide Tone;
    TargetBeyondEnds(w, t, s);
    NormalParts(0, FREQ_START);
    NormalParts(7, FREQ_END);
    if n > 0 {
      ToneNormal(w, if t > HIGHEST then HIGHEST else LOWEST, s);
      BeyondEndsNeverMet(Tone(w, t, s), t, s, n - 1);
    }
  }

  lemma ToneNormal(w: uint16, t: uint16, s: uint16)
    requires Normal(w) && Normal(t) && LOWEST <= t <= HIGHEST && 0 < s < 0x100
    ensures Normal(Tone(w, t, s))
  {
    hide Normal, Height, Meet;
    if w < t { TickUp(w, t, s); } else if w > t { TickDown(w, t, s); }
  }

  /** From a normal frequency, exactly the targets on the scale are ever met; a note lowered or
      raised by its instrument's fine tuning can lie off the scale. */
  lemma MetIff(w: uint16, t: uint16, s: uint16)
    requires Normal(w) && 0 < s < 0x100
    ensures (exists n :: Ticks(w, t, s, n) == t) <==> LOWEST <= t <= HIGHEST
  {
    if LOWEST <= t <= HIGHEST {
      ToneConverges(w, t, s, TicksNeeded(w, t, s));
    } else {
      forall n
        ensures Ticks(w, t, s, n) != t
      {
        BeyondEndsNeverMet(w, t, s, n);
      }
    }
  }

  /** Notes lie on the scale, in order and in their octaves, up to the one that all higher notes
      share; so each is met by a portamento from any other. */
  lemma NotesOnScale(note: nat, higher: nat)
    requires note <= higher < 0x100
    ensures Normal(NFreq(note)) && LOWEST < NFreq(note) <= HIGHEST
    ensures note < higher && note < 96 ==> NFreq(note) < NFreq(higher) && Height(NFreq(note)) < Height(NFreq(higher))
    ensures note >= 96 ==> NFreq(note) == HIGHEST
  {
    NoteParts(note);
    NoteParts(higher);
    hide NFreq, Normal, Height, InOctave;
    if note < 96 {
      InOrder(note / 12, InOctave(note % 12), 0, 0);
      if note < higher < 96 {
        if note / 12 == higher / 12 { OctaveRises(note % 12, higher % 12); }
        InOrder(note / 12, InOctave(note % 12), higher / 12, InOctave(higher % 12));
      }
    }
  }

  lemma OctaveRises(j: nat, k: nat)
    requires j < k < 12
    ensures InOctave(j) < InOctave(k)
  {
  }

  lemma InOrder(o: nat, f: nat, o': nat, f': nat)
    requires o < 8 && FREQ_START < f < FREQ_END
    ensures LOWEST < o * 0x400 + f < HIGHEST && o * FREQ_RANGE + f < 7 * FREQ_RANGE + FREQ_END
    ensures FREQ_START < f' < FREQ_END && (o < o' || (o == o' && f < f')) ==>
              o * 0x400 + f < o' * 0x400 + f' && o * FREQ_RANGE + f < o' * FREQ_RANGE + f'
  {
  }

  /** The parts of a note's frequency; those of one octave rise. */
  lemma NoteParts(note: nat)
    requires note < 0x100
    ensures var w, o, k := NFreq(note), Min(note, 96) / 12, Min(note, 96) % 12;
            && Normal(w)
            && (note < 96 ==> w == o * 0x400 + InOctave(k) && Height(w) == o * FREQ_RANGE + InOctave(k))
            && (note >= 96 ==> w == HIGHEST && Height(w) == 7 * FREQ_RANGE + FREQ_END)
  {
    if note < 96 {
      NormalParts(note / 12, InOctave(note % 12));
    } else {
      NormalParts(7, FREQ_END);
    }
  }

  lemma UpTowards(w: uint16, t: uint16, s: uint16)
    requires 0 < w < t <= HIGHEST && 0 < s < 0x100
    ensures w < Tone(w, t, s) <= t
  {
    hide Octave, Fnum, ShiftUp, ShiftDown, Tone;
    OfParts(w);
    OfParts(t);
    ToneOf(w, t, s);
    UpCases(w, s);
  }

  lemma DownTowards(w: uint16, t: uint16, s: uint16)
    requires LOWEST <= t < w < 0x2000 && 0 < s < 0x100
    ensures t <= Tone(w, t, s) < w
  {
    hide Octave, Fnum, ShiftUp, ShiftDown, Tone;
    OfParts(w);
    OfParts(t);
    ToneOf(w, t, s);
    DownCases(w, s);
  }

  /** Off the octave too, a frequency moves strictly towards a target on the scale, and never past
      it; only silence (zero) stays where it is. */
  lemma TowardsTarget(w: uint16, t: uint16, s: uint16)
    requires w < 0x2000 && LOWEST <= t <= HIGHEST && 0 < s < 0x100
    ensures var r := Tone(w, t, s);
            if w == 0 then r == 0 else if w < t then w < r <= t else if w > t then t <= r < w else r == t
  {
    hide ShiftUp, ShiftDown;
    if 0 < w < t { UpTowards(w, t, s); } else if w > t { DownTowards(w, t, s); }
  }

  /** So every frequency but zero meets it. */
  lemma {:induction false} MeetsFromAnywhere(w: uint16, t: uint16, s: uint16, n: nat)
    requires 0 < w < 0x2000 && LOWEST <= t <= HIGHEST && 0 < s < 0x100 && n >= Max(w - t, t - w)
    ensures Ticks(w, t, s, n) == t
    decreases n
  {
    hide Tone;
    if w == t {
      AtTarget(t, s, n);
    } else {
      TowardsTarget(w, t, s);
      MeetsFromAnywhere(Tone(w, t, s), t, s, n - 1);
    }
  }
}
