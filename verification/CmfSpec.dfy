/** What the CMF player's registers mean (src/cmf.cpp): instruments, pitches, and which OPL voice
    each register belongs to. */
module CmfSpec {
  import opened Bits
  import opened Machine

  datatype Operator = Operator(charMult: byte, scalOutput: byte, attackDecay: byte, sustRelease: byte, waveSel: byte)
  datatype Sbi = Sbi(op: seq<Operator>, connection: byte)   // op[0] modulator, op[1] carrier

  /** A MIDI channel; `transpose` and `pitchbend` as the controllers set them. */
  datatype Channel = Channel(patch: nat, pitchbend: nat, transpose: int)

  /** An OPL voice: never used when `channel` is -1, sounding when `start` > 0, else released. */
  datatype Voice = Voice(start: nat, note: int, channel: int, patch: int)

  const KEYON: nat := 0x20
  const RHYTHM: nat := 0xBD

  /** The operator offset of a voice's modulator; its carrier is 3 further. */
  function Off(v: nat): (o: nat)
    requires v < 9
    ensures o <= 0x12
  {
    v / 3 * 8 + v % 3
  }

  /** The voice that owns operator offset `o`, 9 for none. */
  function OperatorVoice(o: nat): nat {
    if o < 6 then o % 3
    else if 8 <= o < 14 then 3 + (o - 8) % 3
    else if 16 <= o < 22 then 6 + (o - 16) % 3
    else 9
  }

  /** The voice that register `a` belongs to, 9 for a register of none. */
  function VoiceOf(a: nat): nat {
    if 0x20 <= a < 0x40 then OperatorVoice(a - 0x20)
    else if 0x40 <= a < 0x60 then OperatorVoice(a - 0x40)
    else if 0x60 <= a < 0x80 then OperatorVoice(a - 0x60)
    else if 0x80 <= a < 0xA0 then OperatorVoice(a - 0x80)
    else if 0xE0 <= a < 0x100 then OperatorVoice(a - 0xE0)
    else if 0xA0 <= a < 0xA9 then a - 0xA0
    else if 0xB0 <= a < 0xB9 then a - 0xB0
    else if 0xC0 <= a < 0xC9 then a - 0xC0
    else 9
  }

  lemma OwnOperators(v: nat)
    requires v < 9
    ensures OperatorVoice(Off(v)) == v && OperatorVoice(Off(v) + 3) == v
  {
    assert Off(v) == if v < 3 then v else if v < 6 then v + 5 else v + 10;
  }

  /** The registers of an operator (`dest` 0 the modulator, 1 the carrier) of voice `v`. */
  function OperatorOf(regs: seq<byte>, v: nat, dest: nat): Operator
    requires |regs| == 256 && v < 9 && dest < 2
  {
    var o := Off(v) + 3 * dest;
    Operator(regs[0x20 + o], regs[0x40 + o], regs[0x60 + o], regs[0x80 + o], regs[0xE0 + o])
  }

  /** An operator and the connection byte, written to a voice. */
  function WithOperator(regs: seq<byte>, v: nat, dest: nat, op: Operator, connection: byte): (r: seq<byte>)
    requires |regs| == 256 && v < 9 && dest < 2
    ensures |r| == 256
  {
    var o := Off(v) + 3 * dest;
    regs[0x20 + o := op.charMult][0x40 + o := op.scalOutput][0x60 + o := op.attackDecay]
        [0x80 + o := op.sustRelease][0xE0 + o := op.waveSel][0xC0 + v := connection]
  }

  lemma WrittenOnlyThere(regs: seq<byte>, v: nat, dest: nat, op: Operator, connection: byte)
    requires |regs| == 256 && v < 9 && dest < 2
    ensures OnlyVoice(regs, WithOperator(regs, v, dest, op, connection), v)
  {
    hide Off, OperatorVoice;
    OwnOperators(v);
    OwnOffsets(v);
    assert VoiceOf(0xC0 + v) == v;
  }

  lemma OwnOffsets(v: nat)
    requires v < 9
    ensures Off(v) + 3 < 0x20
  {
  }

  lemma WrittenView(regs: seq<byte>, v: nat, dest: nat, op: Operator, connection: byte)
    requires |regs| == 256 && v < 9 && dest < 2
    ensures var view, view' := ViewOf(regs, v), ViewOf(WithOperator(regs, v, dest, op, connection), v);
            view' == if dest == 0 then view.(modulator := op, connection := connection)
                     else view.(carrier := op, connection := connection)
  {
  }

  /** All registers of a voice. */
  datatype View = View(modulator: Operator, carrier: Operator, connection: byte, lo: byte, hi: byte)

  function ViewOf(regs: seq<byte>, v: nat): View
    requires |regs| == 256 && v < 9
  {
    View(OperatorOf(regs, v, 0), OperatorOf(regs, v, 1), regs[0xC0 + v], regs[0xA0 + v], regs[0xB0 + v])
  }

  /** `b` differs from `a` in registers of voice `v` at most. */
  ghost predicate OnlyVoice(a: seq<byte>, b: seq<byte>, v: nat) {
    |a| == |b| == 256 && forall k :: 0 <= k < 256 && VoiceOf(k) != v ==> b[k] == a[k]
  }

  lemma RhythmRegister(a: seq<byte>, x: byte)
    requires |a| == 256
    ensures forall w :: 0 <= w < 9 ==> ViewOf(a[RHYTHM := x], w) == ViewOf(a, w)
  {
  }

  lemma OutsideVoices(a: seq<byte>, k: nat, x: byte)
    requires |a| == 256 && k < 0x20
    ensures forall w :: 0 <= w < 9 ==> ViewOf(a[k := x], w) == ViewOf(a, w)
  {
  }

  lemma HiOf(a: seq<byte>, v: nat)
    requires |a| == 256 && v < 9
    ensures ViewOf(a, v).hi == a[0xB0 + v]
  {
  }

  lemma UnchangedOnly(a: seq<byte>, v: nat)
    requires |a| == 256
    ensures OnlyVoice(a, a, v)
  {
  }

  lemma OnlyVoiceTwice(a: seq<byte>, b: seq<byte>, c: seq<byte>, v: nat)
    requires OnlyVoice(a, b, v) && OnlyVoice(b, c, v)
    ensures OnlyVoice(a, c, v)
  {
  }

  lemma OtherVoices(a: seq<byte>, b: seq<byte>, v: nat)
    requires OnlyVoice(a, b, v)
    ensures forall w :: 0 <= w < 9 && w != v ==> ViewOf(b, w) == ViewOf(a, w)
    ensures b[RHYTHM] == a[RHYTHM] || v == 9
  {
    forall w | 0 <= w < 9 && w != v
      ensures ViewOf(b, w) == ViewOf(a, w)
    {
      OwnOperators(w);
    }
  }

  /** The voice has the whole patch, but for the carrier's output level, which follows the
      velocity of the note; the key scaling bits of that register are the patch's too. */
  predicate Programmed(view: View, s: Sbi)
    requires |s.op| == 2
  {
    && view.modulator == s.op[0]
    && view.carrier.(scalOutput := 0) == s.op[1].(scalOutput := 0)
    && view.carrier.scalOutput / 64 == s.op[1].scalOutput / 64
    && view.connection == s.connection
  }

  /** The carrier level for a velocity: the patch's level scaled, its key scaling bits kept. */
  lemma LevelProduct(v: nat, base: nat)
    requires v <= 255 && base <= 63
    ensures 0 <= v * base <= 255 * base
  {
  }

  function VelocityLevel(scalOutput: byte, velocity: byte): (l: byte)
    ensures l / 64 == scalOutput / 64
  {
    var base := 63 - scalOutput % 64;
    var v := if velocity >= 0x80 then velocity else velocity + 0x80;
    LevelProduct(v, base);
    63 - v * base / 256 + scalOutput / 64 * 64
  }

  /** The level, as an amplitude of 0 to 63, is the patch's, scaled by the velocity (with its top bit set)
      over 256 and rounded down; so a louder note is never quieter. */
  lemma VelocityScales(scalOutput: byte, velocity: byte, louder: byte)
    requires velocity <= louder < 0x80
    ensures var amp, scaled := 63 - scalOutput % 64, 63 - VelocityLevel(scalOutput, velocity) % 64;
            scaled * 256 <= (128 + velocity) * amp < (scaled + 1) * 256
    ensures VelocityLevel(scalOutput, louder) % 64 <= VelocityLevel(scalOutput, velocity) % 64
    ensures VelocityLevel(scalOutput, louder + 0x80) == VelocityLevel(scalOutput, louder)
  {
    var amp := 63 - scalOutput % 64;
    ScaledLevel(scalOutput, 128 + velocity);
    ScaledLevel(scalOutput, 128 + louder);
    assert (128 + louder) * amp == (128 + velocity) * amp + (louder - velocity) * amp;
    LevelProduct(louder - velocity, amp);
  }

  lemma ScaledLevel(scalOutput: byte, v: nat)
    requires 0x80 <= v <= 0xFF
    ensures var amp := 63 - scalOutput % 64; var x := v * amp;
            0 <= x / 256 <= 63 && 63 - VelocityLevel(scalOutput, v) % 64 == x / 256
            && VelocityLevel(scalOutput, v - 0x80) == VelocityLevel(scalOutput, v)
  {
    LevelProduct(v, 63 - scalOutput % 64);
  }

  // Pitch: positions on a line of 8 octaves of 768 steps (64 to the semitone)

  /** Block and semitone of a MIDI note: the table block_note_tbl. */
  function BlockOf(note: nat): (b: nat)
    ensures b <= 7
  {
    if note < 12 then 0 else if note < 108 then note / 12 - 1 else 7
  }

  function SemitoneOf(note: nat): (s: nat)
    ensures s <= 11
  {
    if note < 120 then note % 12 else 11
  }

  function Clamp(x: int, lo: int, hi: int): int {
    if x < lo then lo else if x > hi then hi else x
  }

  const LINE_END: nat := 8 * 768 - 1

  /** The pitch of a note on a channel: one addition, saturating at both ends of the line. */
  function Pitch(ch: Channel, note: int): (p: nat)
    ensures p <= LINE_END
  {
    var n := Clamp(note, 0, 127);
    Clamp(BlockOf(n) * 768 + SemitoneOf(n) * 64 + Quot(ch.transpose, 4) + Quot(ch.pitchbend - 8192, 128), 0, LINE_END)
  }

  /** On a channel at rest a note lies 64 steps to the semitone, note 12 at the bottom; the lowest octave is
      lifted onto the next, the one from note 108 on is lowered onto the last, and the last notes are one.
      A bend all the way down is a semitone, and an octave is 768 steps anywhere between. */
  lemma NotesOnTheLine(patch: nat, note: nat)
    requires note < 128
    ensures var n := if note < 12 then note else if note < 108 then note - 12 else if note < 120 then note - 24 else 95;
            && Pitch(Channel(patch, 8192, 0), note) == 64 * n
            && (n > 0 ==> Pitch(Channel(patch, 0, 0), note) == 64 * (n - 1))
            && (forall t :: 0 <= t <= 63 ==> Pitch(Channel(patch, 8192, 4 * t), note) == 64 * n + t)
  {
    forall t | 0 <= t <= 63
      ensures Quot(4 * t, 4) == t
    {
    }
  }

  /** The pitch in a voice's frequency registers, key on. */
  predicate Plays(view: View, fnums: seq<nat>, pitch: nat)
    requires |fnums| == 768
  {
    var f := fnums[pitch % 768];
    view.lo == f % 256 && view.hi == KEYON + pitch / 768 * 4 + f / 256 % 4
  }

  /** The two frequency registers of a pitch, key off. */
  function FreqLo(fnums: seq<nat>, pitch: nat): byte
    requires |fnums| == 768
  {
    fnums[pitch % 768] % 256
  }

  function FreqHi(fnums: seq<nat>, pitch: nat): (hi: byte)
    requires |fnums| == 768 && pitch <= LINE_END
    ensures hi < 0x20
  {
    pitch / 768 * 4 + fnums[pitch % 768] / 256 % 4
  }

  /** Channels as any 8-bit data bytes can leave them. */
  predicate ChannelOk(ch: Channel) {
    ch.pitchbend <= 0x7FFF && -255 <= ch.transpose <= 255
  }

  function SetBit(r: byte, bit: nat): byte
    requires bit in {1, 2, 4, 8, 16}
  {
    if r / bit % 2 == 1 then r else (r + bit) % 256
  }

  function ClearBit(r: byte, bit: nat): byte
    requires bit in {1, 2, 4, 8, 16}
  {
    if r / bit % 2 == 1 then r - bit else r
  }

  /** The rhythm bit of a percussion channel: bass drum 16 ... hi-hat 1. */
  function RhythmBit(channel: nat): nat
    requires 11 <= channel <= 15
  {
    if channel == 11 then 16 else if channel == 12 then 8 else if channel == 13 then 4 else if channel == 14 then 2 else 1
  }

  /** Channels 11 to 15 have the bits from 4 down to 0. */
  lemma DrumBits(channel: nat)
    requires 11 <= channel <= 15
    ensures RhythmBit(channel) == Pow2(15 - channel)
  {
    assert Pow2(0) == 1 && Pow2(1) == 2 && Pow2(2) == 4 && Pow2(3) == 8 && Pow2(4) == 16;
  }

  function PercVoice(channel: nat): (v: nat)
    requires 11 <= channel <= 15
    ensures 6 <= v <= 8
  {
    if channel == 11 then 6 else if channel == 12 || channel == 15 then 7 else 8
  }

  /** The percussion channel of a General MIDI drum key. */
  function DrumChannel(note: nat): (c: nat)
    ensures 11 <= c <= 15
  {
    if note in {35, 36} then 11
    else if note in {37, 38, 39, 40} then 12
    else if note in {42, 44, 46} then 15
    else if note in {49, 51, 52, 53, 55, 57, 59, 80, 81} then 14
    else 13
  }

  /** The registers of a drum's voice once its patch is loaded: the bass drum has both operators, the
      others one each, of the two voices they share; all take the patch's modulator for it. */
  function DrumLoaded(view: View, channel: nat, s: Sbi): View
    requires |s.op| == 2 && 11 <= channel <= 15
  {
    if channel == 11 then view.(modulator := s.op[0], carrier := s.op[1], connection := s.connection)
    else if channel == 12 || channel == 14 then view.(carrier := s.op[0], connection := s.connection)
    else view.(modulator := s.op[0], connection := s.connection)
  }

  /** ... and once its note is played.  The velocity sets the level of the bass drum's carrier, but else
      always of the modulator: for the snare drum and the cymbal, which have the carrier, that is the
      level of the drum they share the voice with. */
  function DrumView(view: View, channel: nat, s: Sbi, level: byte, lo: byte, hi: byte): View
    requires |s.op| == 2 && 11 <= channel <= 15
  {
    var v := DrumLoaded(view, channel, s).(lo := lo, hi := hi);
    if channel == 11 then v.(carrier := v.carrier.(scalOutput := level))
    else v.(modulator := v.modulator.(scalOutput := level))
  }

  /** Where the drums are on the chip: a drum's patch goes to the operators at these offsets, the second one of
      the bass drum three further. */
  lemma DrumsOnChip(regs: seq<byte>, view: View, channel: nat, s: Sbi)
    requires |regs| == 256 && |s.op| == 2 && 11 <= channel <= 15
    requires ViewOf(regs, PercVoice(channel)) == DrumLoaded(view, channel, s)
    ensures var o := if channel == 11 then 0x10 else if channel == 12 then 0x14 else if channel == 13 then 0x12 else if channel == 14 then 0x15 else 0x11;
            && Operator(regs[0x20 + o], regs[0x40 + o], regs[0x60 + o], regs[0x80 + o], regs[0xE0 + o]) == s.op[0]
            && (channel == 11 ==> Operator(regs[0x33], regs[0x53], regs[0x73], regs[0x93], regs[0xF3]) == s.op[1])
  {
  }

  // Which voice a note gets

  datatype Tier = OwnParked | NeverUsed | AnyParked

  predicate Fits(v: Voice, channel: int, tier: Tier) {
    match tier
    case OwnParked => v.start == 0 && v.channel == channel
    case NeverUsed => v.channel == -1
    case AnyParked => v.start == 0
  }

  /** The first voice of a tier, or |voices|. */
  function FirstFit(voices: seq<Voice>, channel: int, tier: Tier): (i: nat)
    ensures i <= |voices| && (i < |voices| ==> Fits(voices[i], channel, tier))
    ensures forall j :: 0 <= j < i ==> !Fits(voices[j], channel, tier)
  {
    if voices == [] || Fits(voices[0], channel, tier) then 0
    else 1 + FirstFit(voices[1..], channel, tier)
  }

  /** The voice that started first. */
  function Earliest(voices: seq<Voice>): (i: nat)
    requires voices != []
    ensures i < |voices| && forall j :: 0 <= j < |voices| ==> voices[i].start <= voices[j].start
    ensures forall j :: 0 <= j < i ==> voices[i].start < voices[j].start
  {
    var n := |voices| - 1;
    if n == 0 then 0
    else
      var i := Earliest(voices[..n]);
      assert voices[..n][i] == voices[i] && forall j :: 0 <= j < n ==> voices[..n][j] == voices[j];
      if voices[n].start < voices[i].start then n else i
  }

  function BestVoice(voices: seq<Voice>, channel: int): (i: nat)
    requires voices != []
    ensures i < |voices|
  {
    if FirstFit(voices, channel, OwnParked) < |voices| then FirstFit(voices, channel, OwnParked)
    else if FirstFit(voices, channel, NeverUsed) < |voices| then FirstFit(voices, channel, NeverUsed)
    else if FirstFit(voices, channel, AnyParked) < |voices| then FirstFit(voices, channel, AnyParked)
    else Earliest(voices)
  }

  /** A note cuts a sounding voice only when all of them sound, and then the one and only voice
      that has played longest; a channel with a parked voice gets one of its own back, patch and
      all. */
  lemma CutsOnlyTheLongest(voices: seq<Voice>, channel: int)
    requires voices != [] && forall i :: 0 <= i < |voices| && voices[i].channel == -1 ==> voices[i].start == 0
    requires forall i, j :: 0 <= i < j < |voices| && voices[i].start > 0 ==> voices[i].start != voices[j].start
    ensures var v := BestVoice(voices, channel);
            && (voices[v].start > 0 <==> forall i :: 0 <= i < |voices| ==> voices[i].start > 0)
            && (voices[v].start > 0 ==> forall i :: 0 <= i < |voices| && i != v ==> voices[v].start < voices[i].start)
            && (voices[v].start == 0 && voices[v].channel == channel
                <==> exists i :: 0 <= i < |voices| && voices[i].start == 0 && voices[i].channel == channel)
            && (voices[v].channel !in {-1, channel} && voices[v].start == 0 ==>
                  forall i :: 0 <= i < |voices| ==> voices[i].channel != -1 && (voices[i].start > 0 || voices[i].channel != channel))
  {
    var v := BestVoice(voices, channel);
    if i :| 0 <= i < |voices| && Fits(voices[i], channel, OwnParked) {
      assert FirstFit(voices, channel, OwnParked) <= i;
    } else if i :| 0 <= i < |voices| && Fits(voices[i], channel, AnyParked) {
      assert FirstFit(voices, channel, AnyParked) <= i;
    }
    forall i | 0 <= i < |voices| && (Fits(voices[i], channel, OwnParked) || Fits(voices[i], channel, NeverUsed))
      ensures Fits(voices[v], channel, OwnParked) || Fits(voices[v], channel, NeverUsed)
    {
      assert FirstFit(voices, channel, OwnParked) <= i || FirstFit(voices, channel, NeverUsed) <= i;
    }
  }
}
