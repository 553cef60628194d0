/** What the AdLib Visual Composer synth plays, over whole runs: for its six melodic voices, two
    registers each that are a function of a simple history of notes and bends. */
module ComposerRun {
  import opened Wrappers
  import opened Bits
  import opened Machine
  import opened ComposerSpec
  import opened Composer

  datatype Event =
    | Note(voice: nat, note: int)
    | Off(voice: nat)
    | Bend(voice: nat, bend: uint16)
    | Range(range: byte)
    | Rhythm(mode: bool)
    | Restart

  /** A melodic voice: its tuning, the note it was given last, and whether the key is down. */
  datatype Part = Part(tuning: Tuning, note: Option<int>, key: bool)

  datatype Synth = Synth(parts: seq<Part>, step: uint16, rhythm: bool)

  predicate IsSynth(s: Synth) {
    |s.parts| == BASS_DRUM && IsRange(s.step) && forall v :: 0 <= v < BASS_DRUM ==> 0 <= s.parts[v].tuning.row < STEPS
  }

  function Beginning(): (s: Synth)
    ensures IsSynth(s)
  {
    assert STEPS * 1 == RangeStep(1);
    Synth(seq(BASS_DRUM, _ => Part(Tuning(0, 0), None, false)), RangeStep(1), false)
  }

  /** What of a note the cache holds. */
  function Cached(note: Option<int>): byte {
    match note
    case None => 0
    case Some(n) => n % 0x100
  }

  /** Voices exist, and a bend is for one that the mode has. */
  predicate Allowed(s: Synth, ev: Event) {
    && ((ev.Note? || ev.Off? || ev.Bend?) ==> ev.voice < VOICES)
    && (ev.Bend? && ev.voice >= MELODIC ==> s.rhythm)
  }

  function PartAfter(s: Synth, v: nat, ev: Event): (p: Part)
    requires IsSynth(s) && v < BASS_DRUM
    ensures 0 <= p.tuning.row < STEPS
  {
    var p := s.parts[v];
    match ev
    case Note(voice, note) =>
      if voice != v then p else if note == 0 then p.(key := false) else p.(note := Some(note + SILENCE), key := true)
    case Off(voice) => if voice != v then p else p.(key := false)
    case Bend(voice, bend) =>
      if voice != v then p else p.(tuning := Bent(bend, s.step), note := Some(Cached(p.note)))
    case Range(_) => p
    case Rhythm(_) => p
    case Restart => Part(p.tuning.(half := 0), None, false)
  }

  function After(s: Synth, ev: Event): (s': Synth)
    requires IsSynth(s)
    ensures IsSynth(s')
  {
    Synth(seq(BASS_DRUM, v requires 0 <= v < BASS_DRUM => PartAfter(s, v, ev)),
          if ev.Range? then RangeStep(ev.range) else s.step,
          if ev.Rhythm? then ev.mode else s.rhythm)
  }

  function AfterAll(s: Synth, evs: seq<Event>): (s': Synth)
    requires IsSynth(s)
    ensures IsSynth(s')
  {
    if evs == [] then s else After(AfterAll(s, evs[..|evs| - 1]), evs[|evs| - 1])
  }

  predicate AllAllowed(s: Synth, evs: seq<Event>)
    requires IsSynth(s)
  {
    forall i :: 0 <= i < |evs| ==> Allowed(AfterAll(s, evs[..i]), evs[i])
  }

  /** The frequency registers of a voice, and the key bit. */
  function RegsOf(fnums: seq<seq<nat>>, p: Part): Pitch
    requires IsTable(fnums) && 0 <= p.tuning.row < STEPS
  {
    var q := if p.note == None then Pitch(0, 0) else PitchOf(fnums, p.tuning, p.note.value);
    q.(hi := q.hi % 0x20 + if p.key then 0x20 else 0)
  }

  /** What the registers of a voice sound by the machine: its last note at its bend, key and all. */
  predicate Heard(fnums: seq<seq<nat>>, lo: byte, hi: byte, p: Part)
    requires IsTable(fnums) && 0 <= p.tuning.row < STEPS
  {
    (hi >= 0x20 <==> p.key) && (p.note.Some? ==> SoundsKey(fnums, lo, hi, p.note.value + p.tuning.half, p.tuning.row))
  }

  lemma RegsSound(fnums: seq<seq<nat>>, p: Part)
    requires IsTable(fnums) && 0 <= p.tuning.row < STEPS
    ensures Heard(fnums, RegsOf(fnums, p).lo, RegsOf(fnums, p).hi, p)
  {
    hide IsTable, PitchOf, SoundsKey;
    if p.note.Some? {
      PitchSounds(fnums, p.tuning, p.note.value, p.key);
    }
  }

  /** A voice of the synth is as the simple machine has it. */
  predicate Follows(fnums: seq<seq<nat>>, v: Voice, p: Part)
    requires IsTable(fnums) && 0 <= p.tuning.row < STEPS
  {
    && v.tuning == p.tuning && v.keyOn == p.key && v.note == Cached(p.note)
    && Pitch(v.lo, v.hi) == RegsOf(fnums, p) && v.octFNum == v.hi % 0x20 && v.hi < 0x40
  }

  lemma PlayedFollows(fnums: seq<seq<nat>>, v: Voice, note: int, on: bool)
    requires IsTable(fnums) && 0 <= v.tuning.row < STEPS
    ensures Follows(fnums, Played(fnums, v, note, on), Part(v.tuning, Some(note), on))
  {
    hide PitchOf, IsTable;
  }

  lemma ReleasedFollows(fnums: seq<seq<nat>>, v: Voice, p: Part)
    requires IsTable(fnums) && 0 <= p.tuning.row < STEPS && Follows(fnums, v, p)
    ensures Follows(fnums, Released(v), p.(key := false))
  {
    hide PitchOf, IsTable;
  }

  lemma RestartedFollows(fnums: seq<seq<nat>>, t: Tuning)
    requires IsTable(fnums) && 0 <= t.row < STEPS
    ensures Follows(fnums, Voice(0, 0, 0, false, t, 0), Part(t, None, false))
  {
    hide IsTable;
  }

  lemma CacheAndKey(fnums: seq<seq<nat>>, v: Voice, p: Part)
    requires IsTable(fnums) && 0 <= p.tuning.row < STEPS && Follows(fnums, v, p)
    ensures v.note == Cached(p.note) && v.keyOn == p.key
  {
    hide PitchOf, IsTable;
  }

  lemma SameTuning(fnums: seq<seq<nat>>, v: Voice, p: Part)
    requires IsTable(fnums) && 0 <= p.tuning.row < STEPS && Follows(fnums, v, p)
    ensures v.tuning == p.tuning
  {
    hide PitchOf, IsTable;
  }

  lemma BentIs(t: Tuning, bend: uint16, step: uint16)
    requires IsRange(step) && 0 <= t.row < STEPS && Steps(t) == (bend - MID_PITCH) * step / MID_PITCH
    ensures t == Bent(bend, step)
  {
    hide IsRange;
    TuningUnique(t, Bent(bend, step));
  }

  ghost predicate AllFollow(b: Backend, s: Synth)
    requires b.Shape() && IsSynth(s)
    reads b, b.regs, b.tuning, b.noteCache, b.keyOn, b.octFNum
  {
    && b.rangeStep == s.step && b.rhythm == s.rhythm
    && forall v :: 0 <= v < BASS_DRUM ==> Follows(b.fnums, b.VoiceAt(v), s.parts[v])
  }

  /** One voice follows its part after an event; the others are told apart by their number. */
  lemma OthersFollow(s: Synth, ev: Event, v: nat)
    requires IsSynth(s) && v < BASS_DRUM
    ensures After(s, ev).parts[v] == PartAfter(s, v, ev)
    ensures (ev.Note? || ev.Off? || ev.Bend?) && ev.voice != v ==> PartAfter(s, v, ev) == s.parts[v]
    ensures ev.Range? || ev.Rhythm? ==> PartAfter(s, v, ev) == s.parts[v]
  {
    hide Bent, IsRange;
  }

  lemma SameMode(s: Synth, ev: Event)
    requires IsSynth(s) && !ev.Range? && !ev.Rhythm?
    ensures After(s, ev).step == s.step && After(s, ev).rhythm == s.rhythm
  {
    hide IsRange;
  }

  method PlayNote(b: Backend, voice: nat, note: int, ghost s: Synth)
    requires b.Valid() && IsSynth(s) && AllFollow(b, s) && voice < VOICES
    modifies b`notes, b`rhythmBits, b.regs, b.noteCache, b.keyOn, b.octFNum
    ensures b.Valid() && AllFollow(b, After(s, Note(voice, note)))
  {
    hide IsTable, PitchOf, Follows, Played, Released, IsRange, Bent, After;
    b.NoteOn(voice, note);
    SameMode(s, Note(voice, note));
    forall v | 0 <= v < BASS_DRUM
      ensures Follows(b.fnums, b.VoiceAt(v), After(s, Note(voice, note)).parts[v])
    {
      OthersFollow(s, Note(voice, note), v);
      SameTuning(b.fnums, old(b.VoiceAt(v)), s.parts[v]);
      PlayedFollows(b.fnums, old(b.VoiceAt(v)), note + SILENCE, true);
      ReleasedFollows(b.fnums, old(b.VoiceAt(v)), s.parts[v]);
    }
  }

  method StopNote(b: Backend, voice: nat, ghost s: Synth)
    requires b.Valid() && IsSynth(s) && AllFollow(b, s) && voice < VOICES
    modifies b`notes, b`rhythmBits, b.regs, b.noteCache, b.keyOn, b.octFNum
    ensures b.Valid() && AllFollow(b, After(s, Off(voice)))
  {
    hide IsTable, PitchOf, Follows, Played, Released, IsRange, Bent, After;
    b.NoteOff(voice);
    SameMode(s, Off(voice));
    forall v | 0 <= v < BASS_DRUM
      ensures Follows(b.fnums, b.VoiceAt(v), After(s, Off(voice)).parts[v])
    {
      OthersFollow(s, Off(voice), v);
      ReleasedFollows(b.fnums, old(b.VoiceAt(v)), s.parts[v]);
    }
  }

  method PlayBend(b: Backend, voice: nat, bend: uint16, ghost s: Synth)
    requires b.Valid() && IsSynth(s) && AllFollow(b, s) && Allowed(s, Bend(voice, bend))
    modifies b`oldLength, b`oldTuning, b`notes, b.regs, b.tuning, b.noteCache, b.keyOn, b.octFNum
    ensures b.Valid() && AllFollow(b, After(s, Bend(voice, bend)))
  {
    hide IsTable, PitchOf, Follows, Played, Released, IsRange, Bent, After;
    b.ChangePitch(voice, bend);
    SameMode(s, Bend(voice, bend));
    forall v | 0 <= v < BASS_DRUM
      ensures Follows(b.fnums, b.VoiceAt(v), After(s, Bend(voice, bend)).parts[v])
    {
      ghost var was := old(b.VoiceAt(v));
      OthersFollow(s, Bend(voice, bend), v);
      if v == voice {
        BentIs(b.tuning[v], bend, s.step);
        CacheAndKey(b.fnums, was, s.parts[v]);
        PlayedFollows(b.fnums, was.(tuning := b.tuning[v]), was.note, was.keyOn);
      }
    }
  }

  method Replay(b: Backend, ghost s: Synth)
    requires b.Valid() && IsSynth(s) && AllFollow(b, s)
    modifies b`notes, b.regs, b.tuning, b.noteCache, b.keyOn, b.octFNum
    ensures b.Valid() && AllFollow(b, After(s, Restart))
  {
    hide IsTable, PitchOf, Follows, Played, Released, IsRange, Bent, After;
    b.Rewind();
    SameMode(s, Restart);
    forall v | 0 <= v < BASS_DRUM
      ensures Follows(b.fnums, b.VoiceAt(v), After(s, Restart).parts[v])
    {
      OthersFollow(s, Restart, v);
      SameTuning(b.fnums, old(b.VoiceAt(v)), s.parts[v]);
      RestartedFollows(b.fnums, b.tuning[v]);
    }
  }

  /** One event. */
  method PlayOne(b: Backend, ev: Event, ghost s: Synth)
    requires b.Valid() && IsSynth(s) && AllFollow(b, s) && Allowed(s, ev)
    modifies b, b.regs, b.tuning, b.noteCache, b.keyOn, b.octFNum
    ensures b.Valid() && AllFollow(b, After(s, ev))
  {
    hide IsTable, PitchOf, Follows, IsRange, PartAfter;
    match ev {
      case Note(voice, note) => PlayNote(b, voice, note, s);
      case Off(voice) => StopNote(b, voice, s);
      case Bend(voice, bend) => PlayBend(b, voice, bend, s);
      case Range(range) =>
        b.SetPitchRange(range);
        forall v | 0 <= v < BASS_DRUM
          ensures Follows(b.fnums, b.VoiceAt(v), After(s, ev).parts[v])
        {
          OthersFollow(s, ev, v);
        }
      case Rhythm(mode) =>
        b.SetRhythmMode(mode);
        forall v | 0 <= v < BASS_DRUM
          ensures Follows(b.fnums, b.VoiceAt(v), After(s, ev).parts[v])
        {
          OthersFollow(s, ev, v);
        }
      case Restart => Replay(b, s);
    }
  }

  /** Any events, from any state: what the two registers of each melodic voice hold at the end, and
      its tuning, is what the simple machine says. */
  method PlayAll(b: Backend, evs: seq<Event>, ghost s: Synth)
    requires b.Valid() && IsSynth(s) && AllFollow(b, s) && AllAllowed(s, evs)
    modifies b, b.regs, b.tuning, b.noteCache, b.keyOn, b.octFNum
    ensures b.Valid()
    ensures var end := AfterAll(s, evs);
            AllFollow(b, end)
            && forall v :: 0 <= v < BASS_DRUM ==>
                 && b.tuning[v] == end.parts[v].tuning && Pitch(b.regs[0xA0 + v], b.regs[0xB0 + v]) == RegsOf(b.fnums, end.parts[v])
                 && Heard(b.fnums, b.regs[0xA0 + v], b.regs[0xB0 + v], end.parts[v])
  {
    hide Heard, After, Follows, IsTable, PitchOf, RegsOf;
    assert evs[..0] == [];
    for i := 0 to |evs|
      invariant b.Valid() && AllFollow(b, AfterAll(s, evs[..i]))
    {
      assert evs[..i + 1][..i] == evs[..i];
      PlayOne(b, evs[i], AfterAll(s, evs[..i]));
    }
    assert evs[..|evs|] == evs;
    ghost var end := AfterAll(s, evs);
    forall v | 0 <= v < BASS_DRUM
      ensures b.tuning[v] == end.parts[v].tuning && Pitch(b.regs[0xA0 + v], b.regs[0xB0 + v]) == RegsOf(b.fnums, end.parts[v])
      ensures Heard(b.fnums, b.regs[0xA0 + v], b.regs[0xB0 + v], end.parts[v])
    {
      FollowsRegs(b.fnums, b.VoiceAt(v), end.parts[v]);
      RegsSound(b.fnums, end.parts[v]);
    }
  }

  lemma FollowsRegs(fnums: seq<seq<nat>>, v: Voice, p: Part)
    requires IsTable(fnums) && 0 <= p.tuning.row < STEPS && Follows(fnums, v, p)
    ensures v.tuning == p.tuning && Pitch(v.lo, v.hi) == RegsOf(fnums, p)
  {
    hide IsTable, RegsOf;
  }

  /** The same from the start. */
  method PlaySong(fnums: seq<seq<nat>>, evs: seq<Event>) returns (b: Backend)
    requires IsTable(fnums) && AllAllowed(Beginning(), evs)
    ensures b.Valid() && fresh(b) && b.fnums == fnums
    ensures forall v :: 0 <= v < BASS_DRUM ==>
              && Pitch(b.regs[0xA0 + v], b.regs[0xB0 + v]) == RegsOf(fnums, AfterAll(Beginning(), evs).parts[v])
              && Heard(fnums, b.regs[0xA0 + v], b.regs[0xB0 + v], AfterAll(Beginning(), evs).parts[v])
  {
    hide Heard, IsTable, RegsOf, AfterAll, Follows;
    b := new Backend(fnums);
    RestartedFollows(fnums, Tuning(0, 0));
    PlayAll(b, evs, Beginning());
  }
}
