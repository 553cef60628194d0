/** The CMF player on values: what every event of a song does to voices, channels and registers
    (src/cmf.cpp). */
module CmfMachine {
  import opened Bits
  import opened Machine
  import opened CmfSpec

  const INIT_INSTRUMENT: Sbi :=
    Sbi([Operator(0x01, 0x4F, 0xF1, 0x53, 0), Operator(0x11, 0x00, 0xF2, 0x74, 0)], 0x08)

  const FREE: Voice := Voice(0, -1, -1, -1)

  /** What a song comes with: the file's instruments, padded, and behind them five drum patches. */
  datatype Setup = Setup(instruments: seq<Sbi>, instCount: nat, fnums: seq<nat>, midiDrums: bool)

  /** All that events change. */
  datatype Situation = Situation(voices: seq<Voice>, views: seq<View>, rhythm: byte, channels: seq<Channel>,
                                 playing: seq<int>, fix: seq<bool>, percussive: bool, count: nat)

  ghost predicate IsSetup(cfg: Setup) {
    && |cfg.instruments| >= 133 && (forall s :: s in cfg.instruments ==> |s.op| == 2)
    && 1 <= cfg.instCount <= |cfg.instruments| - 5
    && |cfg.fnums| == 768 && forall k :: 0 <= k < 768 ==> cfg.fnums[k] < 1024
  }

  ghost predicate InForm(cfg: Setup, s: Situation) {
    && IsSetup(cfg)
    && |s.voices| == |s.views| == 9 && |s.channels| == |s.playing| == |s.fix| == 16
    && forall c :: 0 <= c < 16 ==> s.channels[c].patch < |cfg.instruments|
  }

  /** Voices for melodic notes. */
  function VoicesOf(percussive: bool): nat {
    if percussive then 6 else 9
  }

  /** A channel that plays a drum. */
  predicate Drums(percussive: bool, c: nat) {
    percussive && c > 10
  }

  /** The channel of a note: files that drum on channel 9 have it told by the key. */
  function Resolved(cfg: Setup, channel: nat, note: byte): (c: nat)
    requires channel < 16
    ensures c < 16
  {
    if cfg.midiDrums && channel == 9 then DrumChannel(note) else channel
  }

  function Matches(v: Voice, c: int, note: int): bool {
    v.channel == c && v.note == note && v.start != 0
  }

  /** The registers of a voice on which a melodic note starts. */
  function Struck(s: Sbi, fnums: seq<nat>, ch: Channel, note: int, velocity: byte): View
    requires |s.op| == 2 && |fnums| == 768
  {
    var p := Pitch(ch, note);
    View(s.op[0], s.op[1].(scalOutput := VelocityLevel(s.op[1].scalOutput, velocity)), s.connection, FreqLo(fnums, p), KEYON + FreqHi(fnums, p))
  }

  /** ... and of a drum. */
  function DrumStruck(cfg: Setup, view: View, ch: Channel, c: nat, note: int, velocity: byte): View
    requires IsSetup(cfg) && 11 <= c < 16 && ch.patch < |cfg.instruments|
  {
    var p := Pitch(ch, note);
    assert ch.patch % 0x100 <= ch.patch;
    assert cfg.instruments[ch.patch] in cfg.instruments && cfg.instruments[ch.patch % 0x100] in cfg.instruments;
    DrumView(view, c, cfg.instruments[ch.patch % 0x100], VelocityLevel(cfg.instruments[ch.patch].op[1].scalOutput, velocity),
             FreqLo(cfg.fnums, p), FreqHi(cfg.fnums, p))
  }

  function Start(cfg: Setup, s: Situation, c: nat, note: byte, velocity: byte): (t: Situation)
    requires InForm(cfg, s) && c < 16
    ensures InForm(cfg, t)
  {
    var ch := s.channels[c];
    if Drums(s.percussive, c) then
      var v, bit := PercVoice(c), RhythmBit(c);
      s.(voices := s.voices[v := Voice(s.count + 1, note, c, ch.patch % 0x100)],
         views := s.views[v := DrumStruck(cfg, s.views[v], ch, c, note, velocity)],
         rhythm := SetBit(ClearBit(s.rhythm, bit), bit), count := s.count + 1)
    else
      var v := BestVoice(s.voices[..VoicesOf(s.percussive)], c);
      assert cfg.instruments[ch.patch] in cfg.instruments;
      s.(voices := s.voices[v := Voice(s.count + 1, note, c, ch.patch)],
         views := s.views[v := Struck(cfg.instruments[ch.patch], cfg.fnums, ch, note, velocity)], count := s.count + 1)
  }

  /** A voice when its note is released: parked, its owner retained. */
  function Released(v: Voice, c: int, note: int): Voice {
    if Matches(v, c, note) then v.(start := 0) else v
  }

  function Quieted(view: View, v: Voice, c: int, note: int): View {
    if Matches(v, c, note) then view.(hi := ClearKey(view.hi)) else view
  }

  function Stop(cfg: Setup, s: Situation, c: nat, note: byte): (t: Situation)
    requires InForm(cfg, s) && c < 16
    ensures InForm(cfg, t)
  {
    if Drums(s.percussive, c) then
      var v := PercVoice(c);
      if s.voices[v].note != note then s
      else s.(voices := s.voices[v := s.voices[v].(start := 0)], rhythm := ClearBit(s.rhythm, RhythmBit(c)))
    else
      var n := VoicesOf(s.percussive);
      s.(voices := seq(9, i requires 0 <= i < 9 => if i < n then Released(s.voices[i], c, note) else s.voices[i]),
         views := seq(9, i requires 0 <= i < 9 => if i < n then Quieted(s.views[i], s.voices[i], c, note) else s.views[i]))
  }

  /** The frequency registers of a sounding voice, after its channel has been tuned. */
  function Tuned(view: View, v: Voice, fnums: seq<nat>, ch: Channel, c: nat): View
    requires |fnums| == 768
  {
    var p := Pitch(ch, v.note % 256);
    if v.channel == c && v.start > 0 then view.(lo := FreqLo(fnums, p), hi := KEYON + FreqHi(fnums, p)) else view
  }

  function Retune(cfg: Setup, s: Situation, c: nat): (t: Situation)
    requires InForm(cfg, s) && c < 16
    ensures InForm(cfg, t)
  {
    if Drums(s.percussive, c) then
      var v := PercVoice(c);
      var p := Pitch(s.channels[c], s.voices[v].note % 256);
      s.(views := s.views[v := s.views[v].(lo := FreqLo(cfg.fnums, p), hi := FreqHi(cfg.fnums, p))])
    else
      s.(views := seq(9, i requires 0 <= i < 9 =>
           if i < VoicesOf(s.percussive) then Tuned(s.views[i], s.voices[i], cfg.fnums, s.channels[c], c) else s.views[i]))
  }

  function Bent(cfg: Setup, s: Situation, c: nat, bend: nat): (t: Situation)
    requires InForm(cfg, s) && c < 16
    ensures InForm(cfg, t)
  {
    Retune(cfg, s.(channels := s.channels[c := s.channels[c].(pitchbend := bend)]), c)
  }

  function Transposed(cfg: Setup, s: Situation, c: nat, amount: int): (t: Situation)
    requires InForm(cfg, s) && c < 16
    ensures InForm(cfg, t)
  {
    Retune(cfg, s.(channels := s.channels[c := s.channels[c].(transpose := amount)]), c)
  }

  /** (msb << 7) | lsb, for any data bytes. */
  function Bend(lsb: byte, msb: byte): (b: nat)
    ensures b <= 0x7FFF
    ensures lsb < 0x80 ==> b == msb * 0x80 + lsb
  {
    msb * 0x80 + if lsb >= 0x80 && msb % 2 == 1 then lsb - 0x80 else lsb
  }

  /** What a program change does to the voices of its channel. */
  function Reprogrammed(v: Voice, c: int, patch: int): Voice {
    if v.channel != c then v
    else if v.start == 0 then v.(channel := -1)
    else v.(patch := patch)
  }

  function Loaded(view: View, s: Sbi): View
    requires |s.op| == 2
  {
    view.(modulator := s.op[0], carrier := s.op[1], connection := s.connection)
  }

  function Reloaded(view: View, v: Voice, c: int, s: Sbi): View
    requires |s.op| == 2
  {
    if v.channel == c && v.start > 0 then Loaded(view, s) else view
  }

  function Patched(cfg: Setup, s: Situation, c: nat, requested: byte): (t: Situation)
    requires InForm(cfg, s) && c < 16
    ensures InForm(cfg, t)
  {
    var patch, n := requested % cfg.instCount, VoicesOf(s.percussive);
    assert cfg.instruments[patch] in cfg.instruments;
    var sbi := cfg.instruments[patch];
    var s1 := s.(channels := s.channels[c := s.channels[c].(patch := patch)]);
    if Drums(s.percussive, c) then
      var v := PercVoice(c);
      s1.(voices := s.voices[v := s.voices[v].(patch := patch)], views := s.views[v := DrumLoaded(s.views[v], c, sbi)])
    else
      s1.(voices := seq(9, i requires 0 <= i < 9 => if i < n then Reprogrammed(s.voices[i], c, patch) else s.voices[i]),
          views := seq(9, i requires 0 <= i < 9 => if i < n then Reloaded(s.views[i], s.voices[i], c, sbi) else s.views[i]))
  }

  /** The voice registers after a reset: the default instrument, frequencies as they were. */
  function ResetView(v: View): View {
    Loaded(v, INIT_INSTRUMENT)
  }

  /** The patch a channel has after a mode switch. */
  function ResetPatch(instruments: nat, midiDrums: bool, c: nat, perc: bool): nat
    requires instruments >= 5
  {
    if midiDrums && perc && 11 <= c <= 15 then instruments - 5 + (c - 11) else 0
  }

  function Switched(cfg: Setup, s: Situation, perc: bool): (t: Situation)
    requires InForm(cfg, s)
    ensures InForm(cfg, t)
  {
    s.(percussive := perc,
       voices := seq(9, _ => FREE),
       views := seq(9, i requires 0 <= i < 9 => ResetView(s.views[i])),
       channels := seq(16, c requires 0 <= c < 16 => s.channels[c].(patch := ResetPatch(|cfg.instruments|, cfg.midiDrums, c, perc))),
       rhythm := if perc then 0xE0 else 0xC0)
  }

  function Controlled(cfg: Setup, s: Situation, c: nat, number: byte, value: byte): (t: Situation)
    requires InForm(cfg, s) && c < 16
    ensures InForm(cfg, t)
  {
    if number == 0x63 then s.(rhythm := s.rhythm % 64 + value % 4 * 64)
    else if number == 0x67 then Switched(cfg, s, value != 0)
    else if number == 0x68 then Transposed(cfg, s, c, value)
    else if number == 0x69 then Transposed(cfg, s, c, -(value as int))
    else s
  }

  /** The velocity of a note-on event after the repair of doubled notes: a doubled note-on is taken as a
      note-off, and the next note-off as the note-on. */
  function Effective(velocity: byte, doubled: bool, fix: bool): byte {
    if velocity != 0 then (if doubled then 0 else velocity) else if fix then 127 else 0
  }

  function Noted(cfg: Setup, s: Situation, channel: nat, note: byte, velocity: byte): (t: Situation)
    requires InForm(cfg, s) && channel < 16
    ensures InForm(cfg, t)
  {
    var doubled := s.playing[channel] == note;
    var v := Effective(velocity, doubled, s.fix[channel]);
    var s1 := s.(playing := s.playing[channel := if v != 0 then note else 255],
                 fix := s.fix[channel := velocity != 0 && (doubled || s.fix[channel])]);
    var c := Resolved(cfg, channel, note);
    if v != 0 then Start(cfg, s1, c, note, v) else Stop(cfg, s1, c, note)
  }

  /** The channel events of a song. */
  datatype Event =
    | NoteOff(channel: nat, note: byte)
    | NoteOn(channel: nat, note: byte, velocity: byte)
    | Controller(channel: nat, number: byte, value: byte)
    | Program(channel: nat, patch: byte)
    | PitchBend(channel: nat, lsb: byte, msb: byte)

  function After(cfg: Setup, s: Situation, ev: Event): (t: Situation)
    requires InForm(cfg, s) && ev.channel < 16
    ensures InForm(cfg, t)
  {
    match ev
    case NoteOff(c, note) => Stop(cfg, s, Resolved(cfg, c, note), note)
    case NoteOn(c, note, velocity) => Noted(cfg, s, c, note, velocity)
    case Controller(c, number, value) => Controlled(cfg, s, c, number, value)
    case Program(c, patch) => Patched(cfg, s, c, patch)
    case PitchBend(c, lsb, msb) => Bent(cfg, s, c, Bend(lsb, msb))
  }

  function AfterAll(cfg: Setup, s: Situation, song: seq<Event>): (t: Situation)
    requires InForm(cfg, s) && forall e :: e in song ==> e.channel < 16
    ensures InForm(cfg, t)
  {
    if song == [] then s else After(cfg, AfterAll(cfg, s, song[..|song| - 1]), song[|song| - 1])
  }

  const SILENT: View := View(Operator(0, 0, 0, 0, 0), Operator(0, 0, 0, 0, 0), 0, 0, 0)

  /** Registers cleared, every voice free, every channel on patch 0. */
  function Blank(cfg: Setup, percussive: bool): (t: Situation)
    requires IsSetup(cfg)
    ensures InForm(cfg, t)
  {
    Situation(seq(9, _ => FREE), seq(9, _ => SILENT), 0, seq(16, _ => Channel(0, 8192, 0)),
              seq(16, _ => 255), seq(16, _ => false), percussive, 0)
  }

  /** A song begins, in rhythm mode if the file drums on channel 9, else in the mode of the song before. */
  function Beginning(cfg: Setup, percussive: bool): (t: Situation)
    requires IsSetup(cfg)
    ensures InForm(cfg, t)
  {
    if cfg.midiDrums then Switched(cfg, Blank(cfg, percussive), true) else Blank(cfg, percussive)
  }
}
