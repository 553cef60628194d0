/** CcomposerBackend of src/composer.cpp: notes, pitch bends and rhythm mode over the OPL registers. */
module Composer {
  import opened Wrappers
  import opened Bits
  import opened Machine
  import opened ComposerSpec

  const VOICES: nat := 11
  const MELODIC: nat := 9
  const SILENCE: int := -12
  const BASS_DRUM: nat := 6
  const SNARE: nat := 7
  const TOMTOM: nat := 8
  const TOM_TO_SNARE: int := 7

  /** What there is to know about one melodic voice: its two registers, its caches and its tuning. */
  datatype Voice = Voice(lo: byte, hi: byte, octFNum: byte, keyOn: bool, tuning: Tuning, note: byte)

  /** The registers sound a note at the voice's bend; the key bit aside. */
  predicate Sounds(fnums: seq<seq<nat>>, v: Voice, note: int)
    requires IsTable(fnums) && 0 <= v.tuning.row < STEPS
  {
    Pitch(v.lo, v.hi % 0x20) == PitchOf(fnums, v.tuning, note)
  }

  /** Once its frequency is set, a voice sounds its note, and the cache holds what of the note fits a
      byte; where no mode uses the voice as a drum, the key bit is as the cache says. */
  predicate VoiceOk(fnums: seq<seq<nat>>, v: Voice, note: Option<int>, neverDrum: bool)
    requires IsTable(fnums)
  {
    && 0 <= v.tuning.row < STEPS && v.octFNum < 0x20 && v.hi < 0x40 && v.hi % 0x20 == v.octFNum
    && (note.Some? ==> Sounds(fnums, v, note.value) && v.note == note.value % 0x100)
    && (neverDrum ==> (v.hi >= 0x20 <==> v.keyOn))
  }

  /** The voice after its frequency is set for a note. */
  function Played(fnums: seq<seq<nat>>, v: Voice, note: int, on: bool): (r: Voice)
    requires IsTable(fnums) && 0 <= v.tuning.row < STEPS
  {
    var p := PitchOf(fnums, v.tuning, note);
    Voice(p.lo, p.hi + (if on then 0x20 else 0), p.hi, on, v.tuning, note % 0x100)
  }

  lemma PlayedSounds(fnums: seq<seq<nat>>, v: Voice, note: int, on: bool)
    requires IsTable(fnums) && 0 <= v.tuning.row < STEPS
    ensures var r := Played(fnums, v, note, on);
            SoundsKey(fnums, r.lo, r.hi, note + v.tuning.half, v.tuning.row) && (r.hi >= 0x20 <==> on)
  {
    hide PitchOf, IsTable, SoundsKey;
    PitchSounds(fnums, v.tuning, note, on);
  }

  lemma PlayedOk(fnums: seq<seq<nat>>, v: Voice, note: int, on: bool, neverDrum: bool)
    requires IsTable(fnums) && 0 <= v.tuning.row < STEPS
    ensures VoiceOk(fnums, Played(fnums, v, note, on), Some(note), neverDrum)
  {
    hide PitchOf, IsTable;
  }

  /** The voice after its key is released. */
  function Released(v: Voice): Voice {
    v.(hi := v.octFNum, keyOn := false)
  }

  /** The key cache of a drum says nothing about its voice. */
  lemma DrumKeyIgnored(fnums: seq<seq<nat>>, v: Voice, note: Option<int>, on: bool)
    requires IsTable(fnums) && VoiceOk(fnums, v, note, false)
    ensures VoiceOk(fnums, v.(keyOn := on), note, false)
  {
    hide PitchOf, IsTable;
  }

  lemma ReleasedOk(fnums: seq<seq<nat>>, v: Voice, note: Option<int>, neverDrum: bool)
    requires IsTable(fnums) && VoiceOk(fnums, v, note, neverDrum)
    ensures VoiceOk(fnums, Released(v), note, neverDrum) && ClearKey(v.octFNum) == v.octFNum
  {
    hide PitchOf, IsTable;
  }

  lemma ClearedOk(fnums: seq<seq<nat>>, t: Tuning, neverDrum: bool)
    requires IsTable(fnums) && 0 <= t.row < STEPS
    ensures VoiceOk(fnums, Voice(0, 0, 0, false, t, 0), None, neverDrum)
  {
    hide IsTable;
  }

  /** A bend repeats the note from the cache.  It repeats the same key exactly for notes that fit the
      cache, and for others only where both are cut off at the same end of the scale. */
  lemma RepeatsNoteIff(n: int, half: int)
    requires -12 <= half <= 84
    ensures OnScale(n + half) == OnScale(n % 0x100 + half) <==>
              || 0 <= n < 0x100
              || (n >= 0x100 && n % 0x100 + half >= NOTES - 1)
              || (n < 0 && n % 0x100 + half <= 0)
  {
    if n < 0 { assert n % 0x100 >= n + 0x100; }
  }

  /** For the notes of the byte formats: a bend after note-on `k` goes astray for the lowest eleven
      notes, which jump to the top of the scale. */
  lemma LowNotesJumpUp(k: nat, half: int)
    requires 0 < k < 0x100 && -12 <= half <= 84
    ensures var n := k + SILENCE;
            OnScale(n % 0x100 + half) == if n >= 0 then OnScale(n + half) else NOTES - 1
    ensures k + SILENCE < 0 ==> OnScale(k + SILENCE + half) < NOTES - 1
  {
  }

  /** After a rewind a voice is in tune only if its last bend was by whole half-tones. */
  lemma RewindInTuneIff(t: Tuning)
    requires 0 <= t.row < STEPS
    ensures Steps(t.(half := 0)) == Steps(t) % STEPS
    ensures Steps(t.(half := 0)) == 0 <==> Steps(t) % STEPS == 0
  {
    DivModUnique(Steps(t), STEPS, t.half, t.row);
  }

  lemma StepsApart(t: Tuning)
    requires 0 <= t.row < STEPS
    ensures Steps(t) / STEPS == t.half && Steps(t) % STEPS == t.row
  {
    DivModUnique(Steps(t), STEPS, t.half, t.row);
  }

  /** All that a bend comes to. */
  lemma BendParts(bend: uint16, step: uint16)
    requires IsRange(step)
    ensures var length, steps := ToInt32(ToUint32(bend - MID_PITCH)) * step, (bend - MID_PITCH) * step / MID_PITCH;
            && -0x2000 * 300 <= length < 0xE000 * 300 && length % STEPS == 0
            && var t := Fresh(length);
               Steps(t) == steps && t.half == steps / STEPS && t.row == steps % STEPS && 0 <= t.row < STEPS && -12 <= t.half <= 84
  {
    hide IsRange, Fresh;
    BendIsFloor(bend, step);
    LengthIs(bend, step);
    StepsApart(Fresh(BendLength(bend, step)));
  }

  function WithDrum(bits: bv8, voice: nat, on: bool): bv8
    requires BASS_DRUM <= voice < VOICES
  {
    var mask: bv8 := [16, 8, 4, 2, 1][voice - BASS_DRUM];
    if on then bits | mask else bits & !mask
  }

  /** The drums, from the bass drum on, have the bits from 4 downwards. */
  lemma DrumBits(bits: bv8, voice: nat, on: bool)
    requires BASS_DRUM <= voice < VOICES
    ensures var mask := (1 as bv8) << (10 - voice);
            WithDrum(bits, voice, on) == if on then bits | mask else bits & !mask
  {
  }

  lemma DrumAgain(bits: bv8, voice: nat)
    requires BASS_DRUM <= voice < VOICES
    ensures WithDrum(WithDrum(bits, voice, false), voice, true) == WithDrum(bits, voice, true)
  {
  }

  class Backend {
    const fnums: seq<seq<nat>>           // skFNumNotes
    const regs: array<byte>
    const tuning: array<Tuning>          // mHalfToneOffset and mFNumFreqPtrList
    const noteCache: array<byte>
    const keyOn: array<bool>
    const octFNum: array<byte>           // mKOnOctFNumCache
    var rhythm: bool
    var rhythmBits: bv8                  // mAMVibRhythmCache
    var rangeStep: uint16
    var oldLength: int32
    var oldTuning: Tuning
    ghost var notes: map<nat, int>       // the notes of the voices whose frequency was set since the last rewind

    ghost predicate Shape()
      reads this`rangeStep
    {
      && IsTable(fnums) && regs.Length == 256 && tuning.Length == VOICES && noteCache.Length == VOICES
      && keyOn.Length == VOICES && octFNum.Length == MELODIC && noteCache != regs && noteCache != octFNum && regs != octFNum
      && IsRange(rangeStep)
    }

    /** The one memo that all voices share: empty under a key that no bend can have, or what a fresh
        computation gives. */
    ghost predicate MemoOk()
      reads this`oldLength, this`oldTuning
    {
      oldLength == -1 || (-0x2000 * 300 <= oldLength < 0xE000 * 300 && oldTuning == Fresh(oldLength))
    }

    ghost predicate TuningOk()
      reads this`rangeStep, tuning
      requires Shape()
    {
      forall v :: 0 <= v < VOICES ==> 0 <= tuning[v].row < STEPS && -12 <= tuning[v].half <= 84
    }

    ghost function VoiceAt(v: nat): Voice
      reads this`rangeStep, regs, tuning, noteCache, keyOn, octFNum
      requires Shape() && v < MELODIC
    {
      Voice(regs[0xA0 + v], regs[0xB0 + v], octFNum[v], keyOn[v], tuning[v], noteCache[v])
    }

    ghost function NoteOf(v: nat): Option<int>
      reads this`notes
    {
      if v in notes then Some(notes[v]) else None
    }

    ghost predicate VoicesOk()
      reads this, regs, tuning, noteCache, keyOn, octFNum
      requires Shape()
    {
      forall v :: 0 <= v < MELODIC ==> VoiceOk(fnums, VoiceAt(v), NoteOf(v), v < BASS_DRUM)
    }

    ghost predicate OthersOk(voice: nat)
      reads this, regs, tuning, noteCache, keyOn, octFNum
      requires Shape()
    {
      forall v :: 0 <= v < MELODIC && v != voice ==> VoiceOk(fnums, VoiceAt(v), NoteOf(v), v < BASS_DRUM)
    }

    ghost predicate Valid()
      reads this, regs, tuning, noteCache, keyOn, octFNum
    {
      Shape() && MemoOk() && TuningOk() && VoicesOk()
    }

    constructor (fnums: seq<seq<nat>>)
      requires IsTable(fnums)
      ensures Valid() && this.fnums == fnums
      ensures forall v :: 0 <= v < VOICES ==> Steps(tuning[v]) == 0
      ensures forall v :: 0 <= v < MELODIC ==> VoiceAt(v) == Voice(0, 0, 0, false, Tuning(0, 0), 0)
      ensures rangeStep == RangeStep(1) && !rhythm
      ensures fresh(regs) && fresh(tuning) && fresh(noteCache) && fresh(keyOn) && fresh(octFNum)
    {
      this.fnums := fnums;
      regs := new byte[256](_ => 0);
      tuning := new Tuning[VOICES](_ => Tuning(0, 0));
      noteCache := new byte[VOICES](_ => 0);
      keyOn := new bool[VOICES](_ => false);
      octFNum := new byte[MELODIC](_ => 0);
      rhythm, rhythmBits, oldLength, oldTuning, notes := false, 0, -1, Tuning(0, 0), map[];
      rangeStep := RangeStep(1);
    }

    lemma RewoundSteps()
      requires Shape() && TuningOk()
      ensures forall v :: 0 <= v < VOICES ==> Steps(tuning[v].(half := 0)) == Steps(tuning[v]) % STEPS
    {
      forall v | 0 <= v < VOICES
        ensures Steps(tuning[v].(half := 0)) == Steps(tuning[v]) % STEPS
      {
        RewindInTuneIff(tuning[v]);
      }
    }

    method Clear()
      requires Shape()
      modifies regs, tuning, noteCache, keyOn, octFNum
      ensures forall v :: 0 <= v < VOICES ==> tuning[v] == old(tuning[v]).(half := 0)
      ensures forall v :: 0 <= v < MELODIC ==> VoiceAt(v) == Voice(0, 0, 0, false, tuning[v], 0)
    {
      hide IsTable, IsRange;
      forall v | 0 <= v < VOICES { tuning[v] := tuning[v].(half := 0); }
      forall v | 0 <= v < VOICES { noteCache[v] := 0; }
      forall v | 0 <= v < MELODIC { octFNum[v] := 0; }
      forall v | 0 <= v < VOICES { keyOn[v] := false; }
      forall r | 0 <= r < 256 { regs[r] := if r == 1 then 0x20 else 0; }
    }

    /** Caches and chip are cleared; but the rows of the frequency table, and the memo, stay. */
    method Rewind()
      requires Valid()
      modifies this`notes, regs, tuning, noteCache, keyOn, octFNum
      ensures Valid()
      ensures forall v :: 0 <= v < VOICES ==>
                tuning[v] == old(tuning[v]).(half := 0) && Steps(tuning[v]) == old(Steps(tuning[v])) % STEPS
      ensures forall v :: 0 <= v < MELODIC ==> VoiceAt(v) == Voice(0, 0, 0, false, tuning[v], 0)
    {
      hide IsTable, PitchOf, Fresh, IsRange, VoiceOk, Steps;
      RewoundSteps();
      Clear();
      notes := map[];
      forall v | 0 <= v < MELODIC
        ensures VoiceOk(fnums, VoiceAt(v), NoteOf(v), v < BASS_DRUM)
      {
        ClearedOk(fnums, tuning[v], v < BASS_DRUM);
      }
    }

    method SetPitchRange(pitchRange: byte)
      requires Valid()
      modifies this`rangeStep
      ensures Valid() && rangeStep == RangeStep(pitchRange)
    {
      hide IsTable, PitchOf, MemoOk;
      var r := pitchRange;
      if r > 12 {
        r := 12;
      }
      if r < 1 {
        r := 1;
      }
      rangeStep := r * STEPS;
      assert rangeStep == RangeStep(pitchRange);
    }

    /** Sets the frequency of a voice, under its bend and with or without the key. */
    method SetFreq(voice: nat, note: int, on: bool)
      requires Shape() && MemoOk() && TuningOk() && OthersOk(voice) && voice < MELODIC
      modifies this`notes, regs, noteCache, keyOn, octFNum
      ensures Valid() && notes == old(notes)[voice := note]
      ensures VoiceAt(voice) == Played(fnums, old(VoiceAt(voice)), note, on)
      ensures SoundsKey(fnums, regs[0xA0 + voice], regs[0xB0 + voice], note + tuning[voice].half, tuning[voice].row)
      ensures regs[0xB0 + voice] >= 0x20 <==> on
      ensures forall v :: 0 <= v < MELODIC && v != voice ==> VoiceAt(v) == old(VoiceAt(v))
      ensures regs[0xBD] == old(regs[0xBD])
    {
      hide IsTable, PitchOf, VoiceOk, IsRange, Fresh, SoundsKey;
      ghost var was := VoiceAt(voice);
      var lo, hi := Registers(voice, note);
      PlayedOk(fnums, was, note, on, voice < BASS_DRUM);
      PlayedSounds(fnums, was, note, on);
      WriteVoice(voice, note, on, lo, hi);
      notes := notes[voice := note];
      assert VoiceAt(voice) == Played(fnums, was, note, on) && NoteOf(voice) == Some(note);
      assert forall v :: 0 <= v < MELODIC && v != voice ==> VoiceAt(v) == old(VoiceAt(v)) && NoteOf(v) == old(NoteOf(v));
      forall v | 0 <= v < MELODIC
        ensures VoiceOk(fnums, VoiceAt(v), NoteOf(v), v < BASS_DRUM)
      {
        assert v != voice ==> VoiceOk(fnums, old(VoiceAt(v)), old(NoteOf(v)), v < BASS_DRUM);
      }
    }

    method WriteVoice(voice: nat, note: int, on: bool, lo: byte, hi: byte)
      requires Shape() && voice < MELODIC && hi < 0x20
      modifies regs, noteCache, keyOn, octFNum
      ensures VoiceAt(voice) == Voice(lo, hi + (if on then 0x20 else 0), hi, on, tuning[voice], note % 0x100)
      ensures forall v :: 0 <= v < MELODIC && v != voice ==> VoiceAt(v) == old(VoiceAt(v))
      ensures regs[0xBD] == old(regs[0xBD])
    {
      hide IsTable, IsRange;
      noteCache[voice] := note % 0x100;
      keyOn[voice] := on;
      octFNum[voice] := hi;
      regs[0xA0 + voice] := lo;
      regs[0xB0 + voice] := hi + if on then 0x20 else 0;
    }

    /** The frequency of a note at the voice's bend, for the two registers. */
    method Registers(voice: nat, note: int) returns (lo: byte, hi: byte)
      requires Shape() && TuningOk() && voice < MELODIC
      ensures Pitch(lo, hi) == PitchOf(fnums, tuning[voice], note) && hi < 0x20
    {
      var biased := OnScale(note + tuning[voice].half);
      var frequency := fnums[tuning[voice].row][biased % 12];
      lo := frequency % 0x100;
      hi := biased / 12 * 4 + frequency / 0x100 % 4;
    }

    /** The branch of ChangePitch that computes a tuning. */
    method Divide(length: int32) returns (t: Tuning)
      requires -0x2000 * 300 <= length < 0xE000 * 300
      ensures t == Fresh(length)
    {
      StepDirIsFloor(length);
      var dir := StepDir(length);
      if dir < 0 {
        var down := STEPS - 1 - dir;
        var delta := Rem(down - STEPS + 1, STEPS);
        if delta != 0 {
          delta := STEPS - delta;
        }
        t := Tuning(-Quot(down, STEPS), delta);
      } else {
        t := Tuning(Quot(dir, STEPS), Rem(dir, STEPS));
      }
    }

    /** Tunes a voice by a bend length, from the memo if it was the last one. */
    method Tune(voice: nat, length: int32)
      requires Shape() && MemoOk() && TuningOk() && voice < VOICES
      requires -0x2000 * 300 <= length < 0xE000 * 300 && length % STEPS == 0
      requires var t := Fresh(length); 0 <= t.row < STEPS && -12 <= t.half <= 84
      modifies this`oldLength, this`oldTuning, tuning
      ensures MemoOk() && TuningOk()
      ensures tuning[..] == old(tuning[..])[voice := Fresh(length)]
    {
      hide IsTable, Fresh, IsRange;
      if oldLength == length {
        tuning[voice] := oldTuning;
      } else {
        tuning[voice] := Divide(length);
        oldTuning := tuning[voice];
        oldLength := length;
      }
    }

    /** Bends a voice and sounds its cached note again. */
    method ChangePitch(voice: nat, pitchBend: uint16)
      requires Valid() && voice < VOICES && (voice < MELODIC || rhythm)
      modifies this`oldLength, this`oldTuning, this`notes, regs, tuning, noteCache, keyOn, octFNum
      ensures Valid()
      ensures forall v :: 0 <= v < VOICES && v != voice ==> tuning[v] == old(tuning[v])
      ensures forall v :: 0 <= v < MELODIC && v != voice ==> VoiceAt(v) == old(VoiceAt(v))
      ensures voice >= BASS_DRUM && rhythm ==> tuning[..] == old(tuning[..]) && regs[..] == old(regs[..])
      ensures !(voice >= BASS_DRUM && rhythm) ==>
                && Steps(tuning[voice]) == (pitchBend - MID_PITCH) * rangeStep / MID_PITCH && 0 <= tuning[voice].row < STEPS
                && notes == old(notes)[voice := old(noteCache[voice]) as int]
                && VoiceAt(voice) == Played(fnums, old(VoiceAt(voice)).(tuning := tuning[voice]), old(noteCache[voice]), old(keyOn[voice]))
      ensures !(voice >= BASS_DRUM && rhythm) ==>
                var steps := (pitchBend - MID_PITCH) * rangeStep / MID_PITCH;
                SoundsKey(fnums, regs[0xA0 + voice], regs[0xB0 + voice], old(noteCache[voice]) + steps / STEPS, steps % STEPS)
    {
      hide IsTable, PitchOf, VoiceOk, Fresh, IsRange, ToInt32, ToUint32, SoundsKey, Played, MemoOk;
      var length := ToInt32(ToUint32(pitchBend - MID_PITCH)) * rangeStep;
      if voice >= BASS_DRUM && rhythm {
        return;
      }
      assert forall v :: 0 <= v < MELODIC ==> VoiceOk(fnums, VoiceAt(v), NoteOf(v), v < BASS_DRUM);
      hide Steps;
      BendParts(pitchBend, rangeStep);
      Tune(voice, length);
      SetFreq(voice, noteCache[voice], keyOn[voice]);
    }

    method SetNoteMelodic(voice: nat, note: int)
      requires Valid() && voice < VOICES
      modifies this`notes, regs, noteCache, keyOn, octFNum
      ensures Valid()
      ensures forall v :: 0 <= v < MELODIC && v != voice ==> VoiceAt(v) == old(VoiceAt(v))
      ensures voice < MELODIC ==>
                VoiceAt(voice) == if note == SILENCE then Released(old(VoiceAt(voice))) else Played(fnums, old(VoiceAt(voice)), note, true)
      ensures voice < MELODIC && note != SILENCE ==>
                && SoundsKey(fnums, regs[0xA0 + voice], regs[0xB0 + voice], note + tuning[voice].half, tuning[voice].row)
                && regs[0xB0 + voice] >= 0x20
    {
      hide IsTable, PitchOf, VoiceOk, Fresh, IsRange, SoundsKey;
      if voice >= MELODIC {
        return;
      }
      assert forall v :: 0 <= v < MELODIC ==> VoiceOk(fnums, VoiceAt(v), NoteOf(v), v < BASS_DRUM);
      ReleasedOk(fnums, VoiceAt(voice), NoteOf(voice), voice < BASS_DRUM);
      regs[0xB0 + voice] := ClearKey(octFNum[voice]);
      keyOn[voice] := false;
      assert VoiceAt(voice) == Released(old(VoiceAt(voice)));
      if note != SILENCE {
        SetFreq(voice, note, true);
      }
    }

    /** The key of a drum is a bit of register 0xBD. */
    method DrumKey(voice: nat, on: bool)
      requires Valid() && BASS_DRUM <= voice < VOICES
      modifies this`rhythmBits, regs, keyOn
      ensures Valid() && keyOn[..] == old(keyOn[..])[voice := on] && regs[0xBD] == rhythmBits as int
      ensures rhythmBits == WithDrum(old(rhythmBits), voice, on)
      ensures forall v :: 0 <= v < MELODIC ==> VoiceAt(v) == if v == voice then old(VoiceAt(v)).(keyOn := on) else old(VoiceAt(v))
    {
      hide IsTable, PitchOf, VoiceOk, Fresh, IsRange, WithDrum;
      assert forall v :: 0 <= v < MELODIC ==> VoiceOk(fnums, VoiceAt(v), NoteOf(v), v < BASS_DRUM);
      if voice < MELODIC { DrumKeyIgnored(fnums, VoiceAt(voice), NoteOf(voice), on); }
      keyOn[voice] := on;
      rhythmBits := WithDrum(rhythmBits, voice, on);
      regs[0xBD] := rhythmBits as int;
      assert VoicesOk();
    }

    /** The tom-tom also tunes the snare drum. */
    method SetNotePercussive(voice: nat, note: int)
      requires Valid() && BASS_DRUM <= voice < VOICES
      modifies this`notes, this`rhythmBits, regs, noteCache, keyOn, octFNum
      ensures Valid() && regs[0xBD] == rhythmBits as int
      ensures forall v :: 0 <= v < BASS_DRUM ==> VoiceAt(v) == old(VoiceAt(v))
      ensures rhythmBits == WithDrum(old(rhythmBits), voice, note != SILENCE) && keyOn[voice] == (note != SILENCE)
      ensures voice == BASS_DRUM && note != SILENCE ==>
                VoiceAt(BASS_DRUM) == Played(fnums, old(VoiceAt(BASS_DRUM)), note, false).(keyOn := true)
      ensures voice == TOMTOM && note != SILENCE ==>
                && VoiceAt(TOMTOM) == Played(fnums, old(VoiceAt(TOMTOM)), note, false).(keyOn := true)
                && VoiceAt(SNARE) == Played(fnums, old(VoiceAt(SNARE)), note + TOM_TO_SNARE, false)
    {
      hide IsTable, PitchOf, VoiceOk, Fresh, IsRange, WithDrum;
      DrumKey(voice, false);
      if note != SILENCE {
        if voice == TOMTOM {
          SetFreq(TOMTOM, note, false);
          SetFreq(SNARE, note + TOM_TO_SNARE, false);
        } else if voice == BASS_DRUM {
          SetFreq(voice, note, false);
        }
        DrumAgain(old(rhythmBits), voice);
        DrumKey(voice, true);
      }
    }

    method SetNote(voice: nat, note: int)
      requires Valid() && voice < VOICES
      modifies this`notes, this`rhythmBits, regs, noteCache, keyOn, octFNum
      ensures Valid()
      ensures voice < BASS_DRUM || (!rhythm && voice < MELODIC) ==>
                && VoiceAt(voice) == (if note == SILENCE then Released(old(VoiceAt(voice))) else Played(fnums, old(VoiceAt(voice)), note, true))
                && rhythmBits == old(rhythmBits)
      ensures voice >= BASS_DRUM && rhythm ==>
                rhythmBits == WithDrum(old(rhythmBits), voice, note != SILENCE) && regs[0xBD] == rhythmBits as int && keyOn[voice] == (note != SILENCE)
      ensures voice >= BASS_DRUM && rhythm && note != SILENCE ==>
                && (voice == BASS_DRUM ==> VoiceAt(BASS_DRUM) == Played(fnums, old(VoiceAt(BASS_DRUM)), note, false).(keyOn := true))
                && (voice == TOMTOM ==>
                      && VoiceAt(TOMTOM) == Played(fnums, old(VoiceAt(TOMTOM)), note, false).(keyOn := true)
                      && VoiceAt(SNARE) == Played(fnums, old(VoiceAt(SNARE)), note + TOM_TO_SNARE, false))
      ensures forall v :: 0 <= v < BASS_DRUM && v != voice ==> VoiceAt(v) == old(VoiceAt(v))
    {
      hide IsTable, Played, PitchOf, WithDrum;
      if voice < BASS_DRUM || !rhythm {
        SetNoteMelodic(voice, note);
      } else {
        SetNotePercussive(voice, note);
      }
    }

    method NoteOn(voice: nat, note: int)
      requires Valid() && voice < VOICES
      modifies this`notes, this`rhythmBits, regs, noteCache, keyOn, octFNum
      ensures Valid()
      ensures (voice < BASS_DRUM || (!rhythm && voice < MELODIC)) && note != 0 ==>
                VoiceAt(voice) == Played(fnums, old(VoiceAt(voice)), note + SILENCE, true)
      ensures (voice < BASS_DRUM || (!rhythm && voice < MELODIC)) && note == 0 ==> VoiceAt(voice) == Released(old(VoiceAt(voice)))
      ensures voice >= BASS_DRUM && rhythm ==>
                rhythmBits == WithDrum(old(rhythmBits), voice, note != 0) && regs[0xBD] == rhythmBits as int && keyOn[voice] == (note != 0)
      ensures voice >= BASS_DRUM && rhythm && note != 0 ==>
                && (voice == BASS_DRUM ==> VoiceAt(BASS_DRUM) == Played(fnums, old(VoiceAt(BASS_DRUM)), note + SILENCE, false).(keyOn := true))
                && (voice == TOMTOM ==>
                      && VoiceAt(TOMTOM) == Played(fnums, old(VoiceAt(TOMTOM)), note + SILENCE, false).(keyOn := true)
                      && VoiceAt(SNARE) == Played(fnums, old(VoiceAt(SNARE)), note + SILENCE + TOM_TO_SNARE, false))
      ensures forall v :: 0 <= v < BASS_DRUM && v != voice ==> VoiceAt(v) == old(VoiceAt(v))
    {
      hide IsTable, Played, PitchOf, WithDrum;
      SetNote(voice, note + SILENCE);
    }

    method NoteOff(voice: nat)
      requires Valid() && voice < VOICES
      modifies this`notes, this`rhythmBits, regs, noteCache, keyOn, octFNum
      ensures Valid()
      ensures voice < BASS_DRUM || (!rhythm && voice < MELODIC) ==> VoiceAt(voice) == Released(old(VoiceAt(voice)))
      ensures voice >= BASS_DRUM && rhythm ==>
                rhythmBits == WithDrum(old(rhythmBits), voice, false) && regs[0xBD] == rhythmBits as int && keyOn[voice] == (false)
      ensures forall v :: 0 <= v < BASS_DRUM && v != voice ==> VoiceAt(v) == old(VoiceAt(v))
    {
      hide IsTable, Played, PitchOf, WithDrum;
      SetNote(voice, SILENCE);
    }

    /** Entering rhythm mode also tunes the tom-tom and the snare drum. */
    method SetRhythmMode(mode: bool)
      requires Valid()
      modifies this`rhythm, this`notes, this`rhythmBits, regs, noteCache, keyOn, octFNum
      ensures Valid() && rhythm == mode
      ensures forall v :: 0 <= v < SNARE ==> VoiceAt(v) == old(VoiceAt(v))
      ensures VoiceAt(SNARE) == if mode then Played(fnums, old(VoiceAt(SNARE)), 31, false) else old(VoiceAt(SNARE))
      ensures VoiceAt(TOMTOM) == if mode then Played(fnums, old(VoiceAt(TOMTOM)), 24, false) else old(VoiceAt(TOMTOM))
      ensures rhythmBits == (if mode then old(rhythmBits) | 0x20 else old(rhythmBits) & 0xDF) && regs[0xBD] == rhythmBits as int
    {
      hide IsTable, PitchOf, VoiceOk, Fresh, IsRange, Played, SoundsKey;
      assert forall v :: 0 <= v < MELODIC ==> VoiceOk(fnums, VoiceAt(v), NoteOf(v), v < BASS_DRUM);
      rhythmBits := if mode then rhythmBits | 0x20 else rhythmBits & 0xDF;
      regs[0xBD] := rhythmBits as int;
      if mode {
        SetFreq(TOMTOM, 24, false);
        SetFreq(SNARE, 31, false);
      }
      rhythm := mode;
    }
  }
}
