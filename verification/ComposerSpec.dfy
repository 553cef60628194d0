/** Pitch bend arithmetic of the AdLib Visual Composer synth (src/composer.cpp). */
module ComposerSpec {
  import opened Bits
  import opened Machine

  const STEPS: nat := 25         // steps of pitch within a half-tone
  const MID_PITCH: nat := 0x2000
  const NOTES: nat := 96
  const MAX_VOLUME: nat := 0x7F

  /** Half-tones, and the row of the frequency table for the steps above them. */
  datatype Tuning = Tuning(half: int16, row: int16)

  function Steps(t: Tuning): int {
    STEPS * t.half + t.row
  }

  /** A pitch range as kept: 1 to 12 half-tones, in steps. */
  predicate IsRange(step: int) {
    exists h :: 1 <= h <= 12 && step == STEPS * h
  }

  function RangeStep(pitchRange: byte): (s: uint16)
    ensures IsRange(s) && STEPS <= s <= 12 * STEPS
  {
    var h := if pitchRange > 12 then 12 else if pitchRange < 1 then 1 else pitchRange;
    assert 1 <= h <= 12 && STEPS * h == STEPS * h;
    STEPS * h
  }

  /** The bend times its range, through unsigned subtraction and a conversion. */
  function BendLength(bend: uint16, step: uint16): int {
    ToInt32(ToUint32(bend - MID_PITCH)) * step
  }

  /** The whole steps in it: an unsigned division, then narrowed to 16 bits. */
  function StepDir(length: int32): int16 {
    ToInt16(ToUint32(length) / MID_PITCH)
  }

  /** Half-tones and row for a number of steps, case by case. */
  function Split(dir: int16): Tuning
    requires -1000 <= dir
  {
    if dir < 0 then
      var down := STEPS - 1 - dir;
      var delta := Rem(down - STEPS + 1, STEPS);
      Tuning(-Quot(down, STEPS), if delta != 0 then STEPS - delta else 0)
    else Tuning(Quot(dir, STEPS), Rem(dir, STEPS))
  }

  /** What is left of the conversions: a signed product, far from the limits, and a multiple of 25. */
  lemma LengthIs(bend: uint16, step: uint16)
    requires IsRange(step)
    ensures BendLength(bend, step) == (bend - MID_PITCH) * step
    ensures -0x2000 * 300 <= BendLength(bend, step) < 0xE000 * 300
    ensures BendLength(bend, step) % STEPS == 0
  {
    var h :| 1 <= h <= 12 && step == STEPS * h;
    var d := bend - MID_PITCH;
    assert ToInt32(ToUint32(d)) == d;
    Products(d, step);
    assert d * step == STEPS * (d * h);
    Multiple(d * h);
  }

  lemma Products(d: int, s: int)
    requires -0x2000 <= d < 0xE000 && 0 < s <= 300
    ensures -0x2000 * 300 <= d * s < 0xE000 * 300
  {
    if d >= 0 {
      assert d * s <= d * 300;
    } else {
      assert -d * s <= -d * 300;
    }
  }

  lemma Multiple(x: int)
    ensures STEPS * x % STEPS == 0
  {
    DivModUnique(STEPS * x, STEPS, x, 0);
  }

  /** Unsigned division and narrowing come to rounding down. */
  lemma StepDirIsFloor(length: int32)
    requires -0x2000 * 300 <= length < 0xE000 * 300
    ensures StepDir(length) == length / MID_PITCH && -300 <= StepDir(length) <= 2100
  {
    var q, r := length / MID_PITCH, length % MID_PITCH;
    assert length == MID_PITCH * q + r;
    if length >= 0 {
      assert ToUint32(length) == length;
    } else {
      assert ToUint32(length) == length + 0x1_0000_0000;
      DivModUnique(length + 0x1_0000_0000, MID_PITCH, q + 0x8_0000, r);
      assert (q + 0x8_0000) % 0x1_0000 == q + 0x1_0000;
    }
  }

  /** Taking a step count apart is Euclidean division. */
  lemma SplitIsEuclidean(dir: int16)
    requires -300 <= dir <= 2100
    ensures var t := Split(dir); Steps(t) == dir && 0 <= t.row < STEPS && -12 <= t.half <= 84
  {
    if dir < 0 {
      var n := -dir;
      assert n == STEPS * (n / STEPS) + n % STEPS;
      if n % STEPS == 0 {
        DivModUnique(n + STEPS - 1, STEPS, n / STEPS, STEPS - 1);
      } else {
        DivModUnique(n + STEPS - 1, STEPS, n / STEPS + 1, n % STEPS - 1);
      }
    }
  }

  function Fresh(length: int32): Tuning
    requires -0x2000 * 300 <= length < 0xE000 * 300
  {
    StepDirIsFloor(length);
    Split(StepDir(length))
  }

  /** Bending means: down to the next whole step, in half-tones and 25ths. */
  lemma BendIsFloor(bend: uint16, step: uint16)
    requires IsRange(step)
    ensures var l := BendLength(bend, step);
            -0x2000 * 300 <= l < 0xE000 * 300
            && var t := Fresh(l); Steps(t) == (bend - MID_PITCH) * step / MID_PITCH && 0 <= t.row < STEPS && -12 <= t.half <= 84
  {
    LengthIs(bend, step);
    StepDirIsFloor(BendLength(bend, step));
    SplitIsEuclidean(StepDir(BendLength(bend, step)));
  }

  /** Steps determine half-tones and row. */
  lemma TuningUnique(t: Tuning, u: Tuning)
    requires Steps(t) == Steps(u) && 0 <= t.row < STEPS && 0 <= u.row < STEPS
    ensures t == u
  {
  }

  /** A bend at a range: whole steps, rounded down, as half-tones and 25ths. */
  function Bent(bend: uint16, step: uint16): (t: Tuning)
    requires IsRange(step)
    ensures 0 <= t.row < STEPS && Steps(t) == (bend - MID_PITCH) * step / MID_PITCH
  {
    BendIsFloor(bend, step);
    var steps := (bend - MID_PITCH) * step / MID_PITCH;
    Tuning(steps / STEPS, steps % STEPS)
  }

  // Frequencies

  function OnScale(n: int): (c: nat)
    ensures c < NOTES
  {
    if n < 0 then 0 else if n >= NOTES then NOTES - 1 else n
  }

  /** Octave and frequency for the two registers. */
  datatype Pitch = Pitch(lo: byte, hi: byte)

  predicate IsTable(fnums: seq<seq<nat>>) {
    |fnums| == STEPS && forall i :: 0 <= i < STEPS ==> |fnums[i]| == 12 && forall j :: 0 <= j < 12 ==> fnums[i][j] < 0x400
  }

  function PitchOf(fnums: seq<seq<nat>>, t: Tuning, note: int): (p: Pitch)
    requires IsTable(fnums) && 0 <= t.row < STEPS
    ensures p.hi < 0x20
  {
    var n := OnScale(note + t.half);
    var f := fnums[t.row][n % 12];
    Pitch(f % 0x100, n / 12 * 4 + f / 0x100 % 4)
  }

  /** What the two registers sound: the octave, and the table's entry in the row, of a key; the
      lowest and the highest key stand for all beyond them. */
  predicate SoundsKey(fnums: seq<seq<nat>>, lo: byte, hi: byte, key: int, row: int)
    requires IsTable(fnums) && 0 <= row < STEPS
  {
    var octave, fnum := hi / 4 % 8, lo + 256 * (hi % 4);
    if key < 0 then octave == 0 && fnum == fnums[row][0]
    else if key >= 96 then octave == 7 && fnum == fnums[row][11]
    else octave == key / 12 && fnum == fnums[row][key % 12]
  }

  lemma PitchSounds(fnums: seq<seq<nat>>, t: Tuning, note: int, key: bool)
    requires IsTable(fnums) && 0 <= t.row < STEPS
    ensures var p := PitchOf(fnums, t, note);
            SoundsKey(fnums, p.lo, p.hi + if key then 0x20 else 0, note + t.half, t.row)
  {
    var n := OnScale(note + t.half);
    var f := fnums[t.row][n % 12];
    OctaveAndHigh(n / 12, f);
  }

  lemma OctaveAndHigh(octave: nat, f: nat)
    requires octave < 8 && f < 0x400
    ensures var hi := octave * 4 + f / 0x100 % 4;
            hi / 4 % 8 == octave && hi % 4 == f / 0x100 && (hi + 0x20) / 4 % 8 == octave && (hi + 0x20) % 4 == f / 0x100
  {
  }

  // Volume

  /** GetKSLTL, through unsigned 16-bit arithmetic. */
  function KslTl(volume: byte, ksltl: byte): (r: byte) {
    var amp := 0x3F - ksltl % 0x40;
    var x := volume * amp;
    AmpBound(volume, amp);
    var level := (0x3F - (x + x + MAX_VOLUME) / (2 * MAX_VOLUME)) % 0x1_0000;
    OrKsl(level, ksltl / 0x40) % 0x100
  }

  /** Sets the two bits above the level. */
  function OrKsl(level: nat, ksl: nat): nat
    requires ksl < 4
  {
    var have := level / 0x40 % 4;
    level + (if ksl / 2 % 2 > have / 2 % 2 then 0x80 else 0) + (if ksl % 2 > have % 2 then 0x40 else 0)
  }

  lemma AmpBound(volume: nat, amp: nat)
    requires volume <= 0xFF && amp <= 0x3F
    ensures volume * amp >= 0 && 2 * (volume * amp) + MAX_VOLUME < 0x7F00
    ensures volume <= MAX_VOLUME ==> volume * amp <= MAX_VOLUME * amp
  {
    assert 0xFF * amp - volume * amp == (0xFF - volume) * amp >= 0;
    assert volume <= MAX_VOLUME ==> MAX_VOLUME * amp - volume * amp == (MAX_VOLUME - volume) * amp >= 0;
  }

  /** The nearest integer to x / 127, halves upwards. */
  predicate IsNearest(n: int, x: int) {
    2 * MAX_VOLUME * n <= 2 * x + MAX_VOLUME < 2 * MAX_VOLUME * (n + 1)
  }

  lemma LevelAndKsl(level: nat, ksl: nat)
    requires level < 0x40 && ksl < 4
    ensures var r := OrKsl(level, ksl); r < 0x100 && r % 0x40 == level && r / 0x40 == ksl
  {
  }

  lemma RoundedAmp(x: nat, amp: nat, n: nat)
    requires x <= MAX_VOLUME * amp && amp <= 0x3F && n == (x + x + MAX_VOLUME) / (2 * MAX_VOLUME)
    ensures IsNearest(n, x) && n <= amp
    ensures x == MAX_VOLUME * amp ==> n == amp
    ensures x == 0 ==> n == 0
  {
    var y := 2 * x + MAX_VOLUME;
    assert y == 2 * MAX_VOLUME * n + y % (2 * MAX_VOLUME);
  }

  /** The amplitude is scaled by volume / 127 and rounded; key scaling is kept; full volume changes
      nothing and volume zero is silence. */
  lemma VolumeScales(volume: byte, ksltl: byte)
    requires volume <= MAX_VOLUME
    ensures var r := KslTl(volume, ksltl);
            && r / 0x40 == ksltl / 0x40
            && IsNearest(0x3F - r % 0x40, volume * (0x3F - ksltl % 0x40))
    ensures volume == MAX_VOLUME ==> KslTl(volume, ksltl) == ksltl
    ensures volume == 0 ==> KslTl(volume, ksltl) % 0x40 == 0x3F
  {
    hide OrKsl, IsNearest;
    var amp := 0x3F - ksltl % 0x40;
    var x := volume * amp;
    var n := (x + x + MAX_VOLUME) / (2 * MAX_VOLUME);
    AmpBound(volume, amp);
    RoundedAmp(x, amp, n);
    LevelAndKsl(0x3F - n, ksltl / 0x40);
    assert KslTl(volume, ksltl) == OrKsl(0x3F - n, ksltl / 0x40);
  }

  /** Beyond full volume: key scaling survives, and the level is that of the rounded product, exactly
      as long as this product does not pass the full amplitude of 63 (or there is nothing to keep,
      the borrow having set both bits anyway). */
  lemma KslKeptIff(volume: byte, ksltl: byte)
    ensures var amp := 0x3F - ksltl % 0x40;
            KslTl(volume, ksltl) / 0x40 == ksltl / 0x40 <==>
              2 * (volume * amp) + MAX_VOLUME < 2 * MAX_VOLUME * 0x40 || ksltl / 0x40 == 3
  {
    hide OrKsl, KslTl, Rounded;
    var x := volume * (0x3F - ksltl % 0x40);
    AmpBound(volume, 0x3F - ksltl % 0x40);
    RoundedBounds(x);
    KslTlIs(volume, ksltl);
    KslOf(Rounded(x), ksltl / 0x40);
  }

  lemma KslOf(n: nat, ksl: nat)
    requires n <= 0x7F && ksl < 4
    ensures OrKsl((0x3F - n) % 0x1_0000, ksl) % 0x100 / 0x40 == ksl <==> n <= 0x3F || ksl == 3
  {
    hide OrKsl;
    if n <= 0x3F {
      LevelAndKsl(0x3F - n, ksl);
    } else {
      Borrowed(n, ksl);
    }
  }

  function Rounded(x: nat): nat {
    (x + x + MAX_VOLUME) / (2 * MAX_VOLUME)
  }

  lemma RoundedBounds(x: nat)
    requires 2 * x + MAX_VOLUME < 0x7F00
    ensures Rounded(x) <= 0x3F <==> 2 * x + MAX_VOLUME < 2 * MAX_VOLUME * 0x40
    ensures Rounded(x) <= 0x7F
  {
  }

  lemma KslTlIs(volume: byte, ksltl: byte)
    ensures KslTl(volume, ksltl) == OrKsl((0x3F - Rounded(volume * (0x3F - ksltl % 0x40))) % 0x1_0000, ksltl / 0x40) % 0x100
  {
    hide OrKsl;
    AmpBound(volume, 0x3F - ksltl % 0x40);
  }

  lemma Borrowed(n: nat, ksl: nat)
    requires 0x40 <= n <= 0x7F && ksl < 4
    ensures var level := (0x3F - n) % 0x1_0000; OrKsl(level, ksl) % 0x100 / 0x40 == 3
  {
  }
}
