/** The CMF player's voice allocation and register shadow: CcmfPlayer of src/cmf.cpp. */
module Cmf {
  import opened Bits
  import opened Machine
  import opened CmfSpec
  import opened CmfMachine
  import opened CmfLaws

  function Views(regs: seq<byte>): (views: seq<View>)
    requires |regs| == 256
    ensures |views| == 9 && forall i :: 0 <= i < 9 ==> views[i] == ViewOf(regs, i)
  {
    seq(9, i requires 0 <= i < 9 => ViewOf(regs, i))
  }

  /** A melodic voice is in order: it carries the current patch of the channel that owns it, and
      while it sounds its registers hold the channel's current pitch of its note, key on. */
  ghost predicate MelodicOk(v: Voice, view: View, channels: seq<Channel>, instruments: seq<Sbi>, fnums: seq<nat>, owners: int)
    requires |channels| == 16 && |fnums| == 768 && forall s :: s in instruments ==> |s.op| == 2
  {
    && -1 <= v.channel < owners <= 16
    && (v.start > 0 ==> v.channel >= 0)
    && (v.channel >= 0 ==>
          && 0 <= v.patch < |instruments|
          && v.patch == channels[v.channel].patch
          && Programmed(view, instruments[v.patch]))
    && (v.start > 0 ==> 0 <= v.note < 0x100 && Plays(view, fnums, Pitch(channels[v.channel], v.note)))
  }

  ghost predicate AllMelodic(voices: seq<Voice>, regs: seq<byte>, channels: seq<Channel>, instruments: seq<Sbi>, fnums: seq<nat>, n: nat, owners: int)
    requires |channels| == 16 && |fnums| == 768 && (forall s :: s in instruments ==> |s.op| == 2)
    requires n <= 9 == |voices| && |regs| == 256
  {
    forall i :: 0 <= i < n ==> MelodicOk(voices[i], ViewOf(regs, i), channels, instruments, fnums, owners)
  }

  /** Start stamps are in the past, and tell sounding voices apart. */
  ghost predicate Stamps(voices: seq<Voice>, count: nat) {
    && (forall i :: 0 <= i < |voices| ==> voices[i].start <= count)
    && (forall i, j :: 0 <= i < j < |voices| && voices[i].start > 0 ==> voices[i].start != voices[j].start)
  }

  lemma NewStamp(voices: seq<Voice>, count: nat, v: nat, x: Voice)
    requires Stamps(voices, count) && v < |voices|
    ensures x.start == count + 1 ==> Stamps(voices[v := x], count + 1)
    ensures x.start == 0 || x.start == voices[v].start ==> Stamps(voices[v := x], count)
  {
  }

  /** A change to one voice and its registers leaves the others in order. */
  lemma OneVoice(voices: seq<Voice>, regs: seq<byte>, regs': seq<byte>, v: nat, x: Voice,
                 channels: seq<Channel>, instruments: seq<Sbi>, fnums: seq<nat>, n: nat, owners: int)
    requires |channels| == 16 && |fnums| == 768 && (forall s :: s in instruments ==> |s.op| == 2)
    requires n <= 9 == |voices| && |regs| == 256 && v < 9 && OnlyVoice(regs, regs', v)
    requires AllMelodic(voices, regs, channels, instruments, fnums, n, owners)
    requires v < n ==> MelodicOk(x, ViewOf(regs', v), channels, instruments, fnums, owners)
    ensures AllMelodic(voices[v := x], regs', channels, instruments, fnums, n, owners)
  {
    OtherVoices(regs, regs', v);
  }

  /** Changes that no voice below `n` sees. */
  lemma SameViews(voices: seq<Voice>, regs: seq<byte>, regs': seq<byte>, v: nat, x: Voice,
                  channels: seq<Channel>, instruments: seq<Sbi>, fnums: seq<nat>, n: nat, owners: int)
    requires |channels| == 16 && |fnums| == 768 && (forall s :: s in instruments ==> |s.op| == 2)
    requires n <= v < 9 == |voices| && |regs| == |regs'| == 256
    requires forall w :: 0 <= w < 9 && w != v ==> ViewOf(regs', w) == ViewOf(regs, w)
    requires AllMelodic(voices, regs, channels, instruments, fnums, n, owners)
    ensures AllMelodic(voices[v := x], regs', channels, instruments, fnums, n, owners)
  {
  }

  /** A voice that is released stays in order. */
  lemma ParkedOk(voices: seq<Voice>, regs: seq<byte>, v: nat, channels: seq<Channel>, instruments: seq<Sbi>, fnums: seq<nat>, n: nat, owners: int)
    requires |channels| == 16 && |fnums| == 768 && (forall s :: s in instruments ==> |s.op| == 2)
    requires v < n <= 9 == |voices| && |regs| == 256
    requires AllMelodic(voices, regs, channels, instruments, fnums, n, owners)
    ensures forall hi :: MelodicOk(voices[v].(start := 0), ViewOf(regs, v).(hi := hi), channels, instruments, fnums, owners)
  {
    assert MelodicOk(voices[v], ViewOf(regs, v), channels, instruments, fnums, owners);
  }

  /** A voice keeps in order when another channel is bent or transposed, and even when its own is
      if it does not sound. */
  lemma NotRetuned(v: Voice, view: View, before: seq<Channel>, now: seq<Channel>, c: nat, instruments: seq<Sbi>, fnums: seq<nat>, owners: int)
    requires |before| == |now| == 16 && |fnums| == 768 && (forall s :: s in instruments ==> |s.op| == 2) && c < 16
    requires now == before[c := now[c]] && now[c].patch == before[c].patch
    requires MelodicOk(v, view, before, instruments, fnums, owners) && !(v.channel == c && v.start > 0)
    ensures MelodicOk(v, view, now, instruments, fnums, owners)
  {
  }

  /** What a note-on leaves in a melodic voice puts it in order. */
  lemma NoteStarted(v: Voice, view: View, c: nat, channels: seq<Channel>, instruments: seq<Sbi>, fnums: seq<nat>, owners: int)
    requires |channels| == 16 && |fnums| == 768 && (forall s :: s in instruments ==> |s.op| == 2)
    requires c < owners <= 16 && v.channel == c && channels[c].patch == v.patch < |instruments| && 0 <= v.note < 0x100
    requires Programmed(view, instruments[v.patch]) && forall k :: 0 <= k < 768 ==> fnums[k] < 1024
    ensures forall level: byte :: level / 64 == instruments[v.patch].op[1].scalOutput / 64 ==>
              var p := Pitch(channels[c], v.note); var f := fnums[p % 768];
              MelodicOk(v, View(view.modulator, view.carrier.(scalOutput := level), view.connection, f % 256, KEYON + p / 768 * 4 + f / 256 % 4),
                        channels, instruments, fnums, owners)
  {
  }

  lemma StruckIs(view: View, s: Sbi, fnums: seq<nat>, ch: Channel, note: int, velocity: byte)
    requires |s.op| == 2 && |fnums| == 768 && (forall k :: 0 <= k < 768 ==> fnums[k] < 1024) && Programmed(view, s)
    ensures var p := Pitch(ch, note);
            view.(carrier := view.carrier.(scalOutput := VelocityLevel(s.op[1].scalOutput, velocity)),
                  lo := fnums[p % 768] % 256, hi := KEYON + p / 768 * 4 + fnums[p % 768] / 256 % 4)
            == Struck(s, fnums, ch, note, velocity)
  {
    hide VelocityLevel, Pitch;
  }

  lemma TunedIs(view: View, v: Voice, fnums: seq<nat>, ch: Channel, c: nat)
    requires |fnums| == 768
    ensures var p := Pitch(ch, v.note % 256);
            v.channel == c && v.start > 0 ==>
              Tuned(view, v, fnums, ch, c) == view.(lo := fnums[p % 768] % 256, hi := KEYON + p / 768 * 4 + fnums[p % 768] / 256 % 4)
    ensures !(v.channel == c && v.start > 0) ==> Tuned(view, v, fnums, ch, c) == view
  {
    hide Pitch;
  }

  /** A sounding voice is put in order by the new frequency of its note. */
  lemma Retuned(v: Voice, view: View, before: seq<Channel>, now: seq<Channel>, c: nat, instruments: seq<Sbi>, fnums: seq<nat>, owners: int)
    requires |before| == |now| == 16 && |fnums| == 768 && (forall s :: s in instruments ==> |s.op| == 2) && c < 16
    requires now == before[c := now[c]] && now[c].patch == before[c].patch && forall k :: 0 <= k < 768 ==> fnums[k] < 1024
    requires MelodicOk(v, view, before, instruments, fnums, owners) && v.channel == c && v.start > 0
    ensures var p := Pitch(now[c], v.note % 256); var f := fnums[p % 768];
            && v.note >= 0
            && MelodicOk(v, view.(lo := f % 256, hi := KEYON + p / 768 * 4 + f / 256 % 4), now, instruments, fnums, owners)
  {
  }

  /** A parked voice whose channel changes its program. */
  function Forgotten(v: Voice, channel: int): Voice {
    if v.start == 0 && v.channel == channel then v.(channel := -1) else v
  }

  lemma SameStamps(voices: seq<Voice>, voices': seq<Voice>, count: nat)
    requires Stamps(voices, count) && |voices| == |voices'|
    requires forall i :: 0 <= i < |voices| ==> voices'[i].start == voices[i].start
    ensures Stamps(voices', count)
  {
  }

  /** Once forgotten, or owned by another channel, a voice is in order under the new patch. */
  lemma ParkedOrElsewhere(voices: seq<Voice>, regs: seq<byte>, c: nat, before: seq<Channel>, now: seq<Channel>,
                          instruments: seq<Sbi>, fnums: seq<nat>, n: nat, owners: int)
    requires |before| == |now| == 16 && |fnums| == 768 && (forall s :: s in instruments ==> |s.op| == 2) && c < 16
    requires n <= 9 == |voices| && |regs| == 256 && now == before[c := now[c]]
    requires AllMelodic(voices, regs, before, instruments, fnums, n, owners)
    ensures forall i :: 0 <= i < n && !(voices[i].channel == c && voices[i].start > 0) ==>
              MelodicOk(Forgotten(voices[i], c), ViewOf(regs, i), now, instruments, fnums, owners)
    ensures forall i :: 0 <= i < n ==> voices[i].channel < owners
    ensures forall i :: 0 <= i < n && voices[i].channel != c ==>
              MelodicOk(voices[i], ViewOf(regs, i), now, instruments, fnums, owners)
  {
    assert forall i :: 0 <= i < n ==> MelodicOk(voices[i], ViewOf(regs, i), before, instruments, fnums, owners);
  }

  /** A sounding voice that is given the new patch is in order again. */
  lemma PatchedOk(voices: seq<Voice>, regs: seq<byte>, v: nat, c: nat, before: seq<Channel>, now: seq<Channel>,
                  instruments: seq<Sbi>, fnums: seq<nat>, n: nat, owners: int)
    requires |before| == |now| == 16 && |fnums| == 768 && (forall s :: s in instruments ==> |s.op| == 2) && c < 16
    requires v < n <= 9 == |voices| && |regs| == 256 && now == before[c := before[c].(patch := now[c].patch)]
    requires AllMelodic(voices, regs, before, instruments, fnums, n, owners)
    requires voices[v].channel == c && voices[v].start > 0 && now[c].patch < |instruments|
    ensures var s := instruments[now[c].patch];
            MelodicOk(voices[v].(patch := now[c].patch), ViewOf(regs, v).(modulator := s.op[0], carrier := s.op[1], connection := s.connection),
                      now, instruments, fnums, owners)
  {
    assert MelodicOk(voices[v], ViewOf(regs, v), before, instruments, fnums, owners);
  }

  class Player {
    const instruments: seq<Sbi>      // the file's table, padded, then five drum patches
    const instCount: nat
    const fnums: seq<nat>            // fnum_tbl
    const midiDrums: bool
    const chOPL: array<Voice>
    const chMIDI: array<Channel>
    const regs: array<byte>
    const notePlaying: array<int>
    const noteFix: array<bool>
    var noteCount: nat
    var percussive: bool

    ghost function Setup(): CmfMachine.Setup {
      CmfMachine.Setup(instruments, instCount, fnums, midiDrums)
    }

    ghost predicate Shape() {
      && chOPL.Length == 9 && chMIDI.Length == 16 && regs.Length == 256
      && notePlaying.Length == 16 && noteFix.Length == 16
      && IsSetup(Setup())
    }

    ghost function Situation(): CmfMachine.Situation
      reads this, chOPL, chMIDI, regs, notePlaying, noteFix
      requires Shape()
    {
      CmfMachine.Situation(chOPL[..], Views(regs[..]), regs[RHYTHM], chMIDI[..], notePlaying[..], noteFix[..], percussive, noteCount)
    }

    function Voices(): nat
      reads this
    {
      VoicesOf(percussive)
    }

    /** The channels that may own a melodic voice. */
    function Owners(): nat
      reads this
    {
      if percussive then 11 else 16
    }

    ghost predicate VoicesOk()
      reads this, chOPL, chMIDI, regs
    {
      && Shape()
      && AllMelodic(chOPL[..], regs[..], chMIDI[..], instruments, fnums, Voices(), Owners())
    }

    ghost predicate StampsOk()
      reads this, chOPL
    {
      Shape() && Stamps(chOPL[..], noteCount)
    }

    ghost predicate ChannelsOk()
      reads this, chMIDI
    {
      && Shape()
      && forall c :: 0 <= c < 16 ==>
           ChannelOk(chMIDI[c]) && chMIDI[c].patch < |instruments| && (c < Owners() ==> chMIDI[c].patch < 0x100)
    }

    ghost predicate Valid()
      reads this, chOPL, chMIDI, regs
    {
      VoicesOk() && StampsOk() && ChannelsOk()
    }

    method WriteOPL(r: nat, v: byte)
      requires regs.Length == 256 && r < 256
      modifies regs
      ensures regs[..] == old(regs[..])[r := v]
    {
      regs[r] := v;
    }

    /** Note to block and f-number, bent and transposed: wraps once, saturates at the ends. */
    method GetFreq(channel: nat, note: int) returns (block: nat, fnum: nat)
      requires Shape() && channel < 16 && ChannelOk(chMIDI[channel]) && note >= 0
      ensures var p := Pitch(chMIDI[channel], note); block == p / 768 && fnum == fnums[p % 768]
    {
      hide BlockOf, SemitoneOf;
      ghost var ch := chMIDI[channel];
      var n := note;
      if n > 127 { n := 127; }
      var blk: int := BlockOf(n);
      var idx: int := SemitoneOf(n) * 64;
      idx := idx + Quot(chMIDI[channel].transpose, 4);
      idx := idx + Quot(chMIDI[channel].pitchbend - 8192, 128);
      if idx < 0 {
        idx := idx + 768;
        blk := blk - 1;
        if blk < 0 { idx := 0; blk := 0; }
      }
      if idx >= 768 {
        idx := idx - 768;
        blk := blk + 1;
        if blk > 7 { idx := 767; blk := 7; }
      }
      assert blk * 768 + idx == Pitch(ch, note);
      block, fnum := blk, fnums[idx];
    }

    method WriteInstrumentSettings(voice: nat, source: nat, dest: nat, instrument: nat)
      requires Shape() && voice < 9 && source < 2 && dest < 2 && instrument < |instruments|
      modifies regs
      ensures regs[..] == WithOperator(old(regs[..]), voice, dest, instruments[instrument].op[source], instruments[instrument].connection)
    {
      var o := Off(voice) + if dest == 1 then 3 else 0;
      var op := instruments[instrument].op[source];
      WriteOPL(0x20 + o, op.charMult);
      WriteOPL(0x40 + o, op.scalOutput);
      WriteOPL(0x60 + o, op.attackDecay);
      WriteOPL(0x80 + o, op.sustRelease);
      WriteOPL(0xE0 + o, op.waveSel);
      WriteOPL(0xC0 + voice, instruments[instrument].connection);
    }

    /** Loads a patch into the operators of a percussion channel. */
    method LoadDrum(channel: nat, instrument: nat)
      requires Shape() && 11 <= channel < 16 && instrument < |instruments|
      modifies regs
      ensures OnlyVoice(old(regs[..]), regs[..], PercVoice(channel))
      ensures ViewOf(regs[..], PercVoice(channel)) == DrumLoaded(old(ViewOf(regs[..], PercVoice(channel))), channel, instruments[instrument])
    {
      hide WithOperator, OnlyVoice, ViewOf;
      ghost var r, s, v := regs[..], instruments[instrument], PercVoice(channel);
      WrittenOnlyThere(r, v, 0, s.op[0], s.connection);
      WrittenOnlyThere(r, v, 1, s.op[0], s.connection);
      WrittenView(r, v, 0, s.op[0], s.connection);
      WrittenView(r, v, 1, s.op[0], s.connection);
      if channel == 11 {
        ghost var r1 := WithOperator(r, v, 0, s.op[0], s.connection);
        WrittenOnlyThere(r1, v, 1, s.op[1], s.connection);
        WrittenView(r1, v, 1, s.op[1], s.connection);
        WriteInstrumentSettings(6, 0, 0, instrument);
        WriteInstrumentSettings(6, 1, 1, instrument);
        OnlyVoiceTwice(r, r1, regs[..], v);
      } else if channel == 12 {
        WriteInstrumentSettings(7, 0, 1, instrument);
      } else if channel == 13 {
        WriteInstrumentSettings(8, 0, 0, instrument);
      } else if channel == 14 {
        WriteInstrumentSettings(8, 0, 1, instrument);
      } else {
        WriteInstrumentSettings(7, 0, 0, instrument);
      }
    }

    /** Loads a patch into a voice.  A percussion channel loads only its own operators. */
    method ChangeInstrument(voice: nat, channel: nat, instrument: nat)
      requires Shape() && voice < 9 && channel < 16 && instrument < |instruments| && instrument < 0x100
      requires channel > 10 && percussive ==> voice == PercVoice(channel)
      modifies regs, chOPL
      ensures chOPL[..] == old(chOPL[..])[voice := old(chOPL[voice]).(patch := instrument)]
      ensures OnlyVoice(old(regs[..]), regs[..], voice)
      ensures !(channel > 10 && percussive) ==>
                var s := instruments[instrument];
                ViewOf(regs[..], voice) == old(ViewOf(regs[..], voice)).(modulator := s.op[0], carrier := s.op[1], connection := s.connection)
      ensures channel > 10 && percussive ==>
                ViewOf(regs[..], voice) == DrumLoaded(old(ViewOf(regs[..], voice)), channel, instruments[instrument])
    {
      ghost var r, s := regs[..], instruments[instrument];
      if channel > 10 && percussive {
        LoadDrum(channel, instrument);
      } else {
        ghost var r1 := WithOperator(r, voice, 0, s.op[0], s.connection);
        WrittenOnlyThere(r, voice, 0, s.op[0], s.connection);
        WrittenOnlyThere(r1, voice, 1, s.op[1], s.connection);
        WrittenView(r, voice, 0, s.op[0], s.connection);
        WrittenView(r1, voice, 1, s.op[1], s.connection);
        hide WithOperator, OnlyVoice, ViewOf;
        WriteInstrumentSettings(voice, 0, 0, instrument);
        WriteInstrumentSettings(voice, 1, 1, instrument);
        OnlyVoiceTwice(r, r1, regs[..], voice);
      }
      chOPL[voice] := chOPL[voice].(patch := instrument);
    }

    /** Writes a frequency and the key-on bit. */
    method WriteFrequency(voice: nat, block: nat, fnum: nat, key: bool)
      requires Shape() && voice < 9 && block < 8 && fnum < 1024
      modifies regs
      ensures OnlyVoice(old(regs[..]), regs[..], voice)
      ensures ViewOf(regs[..], voice) == old(ViewOf(regs[..], voice)).(lo := fnum % 256, hi := (if key then KEYON else 0) + block * 4 + fnum / 256 % 4)
    {
      WriteOPL(0xA0 + voice, fnum % 256);
      WriteOPL(0xB0 + voice, (if key then KEYON else 0) + block * 4 + fnum / 256 % 4);
      assert VoiceOf(0xA0 + voice) == voice && VoiceOf(0xB0 + voice) == voice;
    }

    /** Clears the key-on bit of a voice. */
    method KeyOff(voice: nat)
      requires Shape() && voice < 9
      modifies regs
      ensures OnlyVoice(old(regs[..]), regs[..], voice)
      ensures ViewOf(regs[..], voice) == old(ViewOf(regs[..], voice)).(hi := ClearKey(old(regs[0xB0 + voice])))
    {
      WriteOPL(0xB0 + voice, ClearKey(regs[0xB0 + voice]));
      assert VoiceOf(0xB0 + voice) == voice;
    }

    /** The percussion voice of a channel follows it; that touches no melodic voice. */
    method RetuneDrum(channel: nat, ghost before: seq<Channel>)
      requires Shape() && ChannelsOk() && percussive && 11 <= channel < 16 && |before| == 16
      requires chMIDI[..] == before[channel := chMIDI[channel]] && chMIDI[channel].patch == before[channel].patch
      requires forall i :: 0 <= i < Voices() ==> MelodicOk(chOPL[i], ViewOf(regs[..], i), before, instruments, fnums, Owners())
      modifies regs
      ensures forall i :: 0 <= i < Voices() ==>
                ViewOf(regs[..], i) == old(ViewOf(regs[..], i))
                && MelodicOk(chOPL[i], ViewOf(regs[..], i), chMIDI[..], instruments, fnums, Owners())
      ensures Situation() == Retune(Setup(), old(Situation()), channel)
    {
      hide MelodicOk, ViewOf, OnlyVoice, Pitch;
      var voice := PercVoice(channel);
      ghost var r, now, s := regs[..], chMIDI[..], Situation();
      var block, fnum := GetFreq(channel, chOPL[voice].note % 256);
      WriteFrequency(voice, block, fnum, false);
      OtherVoices(r, regs[..], voice);
      forall j | 0 <= j < Voices()
        ensures MelodicOk(chOPL[j], ViewOf(regs[..], j), now, instruments, fnums, Owners())
      {
        OwnedBelow(chOPL[j], ViewOf(r, j), before);
        NotRetuned(chOPL[j], ViewOf(r, j), before, now, channel, instruments, fnums, Owners());
      }
      assert Situation().views == Retune(Setup(), s, channel).views;
    }

    /** The sounding voices of a melodic channel follow it. */
    method RetuneVoices(channel: nat, ghost before: seq<Channel>)
      requires Shape() && ChannelsOk() && channel < 16 && |before| == 16
      requires chMIDI[..] == before[channel := chMIDI[channel]] && chMIDI[channel].patch == before[channel].patch
      requires forall i :: 0 <= i < Voices() ==> MelodicOk(chOPL[i], ViewOf(regs[..], i), before, instruments, fnums, Owners())
      modifies regs
      ensures regs[RHYTHM] == old(regs[RHYTHM])
      ensures forall i :: 0 <= i < Voices() ==> MelodicOk(chOPL[i], ViewOf(regs[..], i), chMIDI[..], instruments, fnums, Owners())
      ensures forall i :: 0 <= i < 9 ==>
                ViewOf(regs[..], i) == if i < Voices() then Tuned(old(ViewOf(regs[..], i)), chOPL[i], fnums, chMIDI[channel], channel)
                                       else old(ViewOf(regs[..], i))
    {
      hide MelodicOk, ViewOf, OnlyVoice, Pitch, Tuned, ChannelOk;
      ghost var now, r0 := chMIDI[..], regs[..];
      var n := Voices();
      for i := 0 to n
        invariant forall j :: 0 <= j < n ==>
          MelodicOk(chOPL[j], ViewOf(regs[..], j), if j < i then now else before, instruments, fnums, Owners())
        invariant regs[RHYTHM] == r0[RHYTHM]
        invariant forall j :: 0 <= j < 9 ==>
          ViewOf(regs[..], j) == if j < i then Tuned(ViewOf(r0, j), chOPL[j], fnums, now[channel], channel) else ViewOf(r0, j)
      {
        ghost var r := regs[..];
        TunedIs(ViewOf(r0, i), chOPL[i], fnums, now[channel], channel);
        if chOPL[i].channel == channel && chOPL[i].start > 0 {
          Retuned(chOPL[i], ViewOf(r, i), before, now, channel, instruments, fnums, Owners());
          var block, fnum := GetFreq(channel, chOPL[i].note % 256);
          WriteFrequency(i, block, fnum, true);
          OtherVoices(r, regs[..], i);
        } else {
          NotRetuned(chOPL[i], ViewOf(r, i), before, now, channel, instruments, fnums, Owners());
        }
      }
    }

    /** After a bend or a transposition: retunes what the channel is playing. */
    method NoteUpdate(channel: nat, ghost before: seq<Channel>)
      requires StampsOk() && ChannelsOk() && channel < 16 && |before| == 16
      requires chMIDI[..] == before[channel := chMIDI[channel]] && chMIDI[channel].patch == before[channel].patch
      requires forall i :: 0 <= i < Voices() ==> MelodicOk(chOPL[i], ViewOf(regs[..], i), before, instruments, fnums, Owners())
      modifies regs
      ensures Valid()
      ensures Situation() == Retune(Setup(), old(Situation()), channel)
    {
      hide MelodicOk, ViewOf, OnlyVoice, Pitch, Tuned, ChannelOk, Stamps;
      if channel > 10 && percussive {
        RetuneDrum(channel, before);
      } else {
        RetuneVoices(channel, before);
        assert Situation().views == Retune(Setup(), old(Situation()), channel).views;
      }
    }

    lemma OwnedBelow(v: Voice, view: View, channels: seq<Channel>)
      requires Shape() && |channels| == 16 && MelodicOk(v, view, channels, instruments, fnums, Owners())
      ensures v.channel < Owners()
    {
    }

    /** The first voice of a tier, or -1. */
    method FindFit(channel: nat, tier: Tier) returns (voice: int)
      requires Shape()
      ensures var i := FirstFit(chOPL[..Voices()], channel, tier);
              voice == if i < Voices() then i else -1
    {
      var n := Voices();
      ghost var voices := chOPL[..n];
      voice := -1;
      for i := 0 to n
        invariant FirstFit(voices, channel, tier) >= i
        invariant voice == -1
      {
        if Fits(chOPL[i], channel, tier) {
          assert voices[i] == chOPL[i];
          return i;
        }
        assert voices[i] == chOPL[i];
      }
    }

    /** The voice for a new note: one the channel parked itself, else one never used, else any
        parked one, else the one that has played longest. */
    method FindVoice(channel: nat) returns (voice: nat, steal: bool)
      requires Shape()
      ensures voice == BestVoice(chOPL[..Voices()], channel)
      ensures steal <==> FirstFit(chOPL[..Voices()], channel, OwnParked) == FirstFit(chOPL[..Voices()], channel, NeverUsed)
                         == FirstFit(chOPL[..Voices()], channel, AnyParked) == Voices()
    {
      var found := FindFit(channel, OwnParked);
      if found == -1 {
        found := FindFit(channel, NeverUsed);
      }
      if found == -1 {
        found := FindFit(channel, AnyParked);
      }
      steal := found == -1;
      if steal {
        ghost var voices := chOPL[..Voices()];
        found := 0;
        var earliest := chOPL[0].start;
        for i := 1 to Voices()
          invariant 0 <= found < i && earliest == chOPL[found].start
          invariant forall j :: 0 <= j < i ==> earliest <= voices[j].start
          invariant forall j :: 0 <= j < found ==> earliest < voices[j].start
        {
          assert voices[i] == chOPL[i];
          if chOPL[i].start < earliest {
            found := i;
            earliest := chOPL[i].start;
          }
        }
        assert voices[found] == chOPL[found];
      }
      voice := found;
    }

    method SetLevel(voice: nat, carrier: bool, level: byte)
      requires Shape() && voice < 9
      modifies regs
      ensures OnlyVoice(old(regs[..]), regs[..], voice)
      ensures var view := old(ViewOf(regs[..], voice));
              ViewOf(regs[..], voice) == if carrier then view.(carrier := view.carrier.(scalOutput := level))
                                         else view.(modulator := view.modulator.(scalOutput := level))
    {
      OwnOperators(voice);
      WriteOPL(0x40 + Off(voice) + if carrier then 3 else 0, level);
    }

    /** Makes voice `v` carry the patch of `channel`: nothing to do if the channel owns it. */
    method ProgramVoice(v: nat, channel: nat, steal: bool)
      requires Valid() && channel < Owners() && v < Voices()
      modifies regs, chOPL
      ensures chOPL[..] == old(chOPL[..])[v := old(chOPL[v]).(patch := chMIDI[channel].patch)]
      ensures OnlyVoice(old(regs[..]), regs[..], v)
      ensures Programmed(ViewOf(regs[..], v), instruments[chMIDI[channel].patch])
    {
      hide ViewOf, OnlyVoice, Pitch;
      ghost var r0 := regs[..];
      assert MelodicOk(chOPL[v], ViewOf(r0, v), chMIDI[..], instruments, fnums, Owners());
      UnchangedOnly(r0, v);
      if steal {
        KeyOff(v);
      }
      ghost var r1 := regs[..];
      UnchangedOnly(r1, v);
      if chOPL[v].channel != channel {
        ChangeInstrument(v, channel, chMIDI[channel].patch);
      }
      OnlyVoiceTwice(r0, r1, regs[..], v);
    }

    /** A note on a melodic channel. */
    method MelodicNoteOn(channel: nat, note: byte, velocity: byte) returns (ghost voice: nat)
      requires Valid() && channel < Owners()
      modifies this`noteCount, regs, chOPL
      ensures Valid() && noteCount == old(noteCount) + 1
      ensures voice == BestVoice(old(chOPL[..Voices()]), channel)
      ensures chOPL[..] == old(chOPL[..])[voice := Voice(noteCount, note, channel, chMIDI[channel].patch)]
      ensures OnlyVoice(old(regs[..]), regs[..], voice)
      ensures ViewOf(regs[..], voice) == Struck(instruments[chMIDI[channel].patch], fnums, chMIDI[channel], note, velocity)
    {
      hide MelodicOk, AllMelodic, Stamps, ViewOf, OnlyVoice, Pitch, VelocityLevel, BestVoice, FirstFit, Programmed;
      ghost var r0, voices := regs[..], chOPL[..];
      var block, fnum := GetFreq(channel, note);
      var v, steal := FindVoice(channel);
      voice := v;
      ProgramVoice(v, channel, steal);
      ghost var r1 := regs[..];
      noteCount := noteCount + 1;
      chOPL[v] := chOPL[v].(start := noteCount, channel := channel, note := note);
      var level := VelocityLevel(instruments[chMIDI[channel].patch].op[1].scalOutput, velocity);
      NoteStarted(chOPL[v], ViewOf(r1, v), channel, chMIDI[..], instruments, fnums, Owners());
      SetLevel(v, true, level);
      ghost var r2 := regs[..];
      WriteFrequency(v, block, fnum, true);
      OnlyVoiceTwice(r0, r1, r2, v);
      OnlyVoiceTwice(r0, r2, regs[..], v);
      StruckIs(ViewOf(r1, v), instruments[chMIDI[channel].patch], fnums, chMIDI[channel], note, velocity);
      assert chOPL[..] == voices[v := chOPL[v]];
      NewStamp(voices, old(noteCount), v, chOPL[v]);
      OneVoice(voices, r0, regs[..], v, chOPL[v], chMIDI[..], instruments, fnums, Voices(), Owners());
    }

    /** Releases a rhythm key that is on, then presses it. */
    method RhythmKeyOn(bit: nat)
      requires regs.Length == 256 && bit in {1, 2, 4, 8, 16}
      modifies regs
      ensures regs[RHYTHM] == SetBit(ClearBit(old(regs[RHYTHM]), bit), bit)
      ensures forall w :: 0 <= w < 9 ==> ViewOf(regs[..], w) == ViewOf(old(regs[..]), w)
    {
      hide ViewOf;
      RhythmRegister(regs[..], ClearBit(regs[RHYTHM], bit));
      if regs[RHYTHM] / bit % 2 == 1 {
        WriteOPL(RHYTHM, ClearBit(regs[RHYTHM], bit));
      }
      RhythmRegister(regs[..], SetBit(regs[RHYTHM], bit));
      WriteOPL(RHYTHM, SetBit(regs[RHYTHM], bit));
    }

    /** A note on a percussion channel in rhythm mode: voices 0 to 5 are out of its reach. */
    method PercNoteOn(channel: nat, note: byte, velocity: byte)
      requires Valid() && percussive && 11 <= channel < 16
      modifies this`noteCount, regs, chOPL
      ensures Valid() && noteCount == old(noteCount) + 1
      ensures var v := PercVoice(channel);
              && chOPL[..] == old(chOPL[..])[v := Voice(noteCount, note, channel, chMIDI[channel].patch % 0x100)]
              && (forall w :: 0 <= w < 9 && w != v ==> ViewOf(regs[..], w) == ViewOf(old(regs[..]), w))
              && regs[RHYTHM] == SetBit(ClearBit(old(regs[RHYTHM]), RhythmBit(channel)), RhythmBit(channel))
      ensures ViewOf(regs[..], PercVoice(channel)) == DrumStruck(Setup(), ViewOf(old(regs[..]), PercVoice(channel)), chMIDI[channel], channel, note, velocity)
    {
      hide MelodicOk, AllMelodic, Stamps, ViewOf, OnlyVoice, Pitch, VelocityLevel, Programmed;
      var block, fnum := GetFreq(channel, note);
      var v, bit := PercVoice(channel), RhythmBit(channel);
      ghost var r0, voices := regs[..], chOPL[..];
      ChangeInstrument(v, channel, chMIDI[channel].patch % 0x100);
      ghost var r1 := regs[..];
      SetLevel(v, channel == 11, VelocityLevel(instruments[chMIDI[channel].patch].op[1].scalOutput, velocity));
      ghost var r2 := regs[..];
      WriteFrequency(v, block, fnum, false);
      ghost var r3 := regs[..];
      OnlyVoiceTwice(r0, r1, r2, v);
      OnlyVoiceTwice(r0, r2, r3, v);
      OtherVoices(r0, r3, v);
      RhythmKeyOn(bit);
      noteCount := noteCount + 1;
      chOPL[v] := chOPL[v].(start := noteCount, channel := channel, note := note);
      assert chOPL[..] == voices[v := chOPL[v]];
      NewStamp(voices, old(noteCount), v, chOPL[v]);
      SameViews(voices, r0, regs[..], v, chOPL[v], chMIDI[..], instruments, fnums, Voices(), Owners());
    }

    /** Starts a note, on the rhythm channel of its key if the file drums on channel 9. */
    method NoteOn(channel: nat, note: byte, velocity: byte)
      requires Valid() && channel < 16
      modifies this`noteCount, regs, chOPL
      ensures Valid() && noteCount == old(noteCount) + 1
      ensures var c := if midiDrums && channel == 9 then DrumChannel(note) else channel;
              var v := if c > 10 && percussive then PercVoice(c) else BestVoice(old(chOPL[..Voices()]), c);
              && chOPL[..] == old(chOPL[..])[v := Voice(noteCount, note, c, chMIDI[c].patch % 0x100)]
              && forall w :: 0 <= w < 9 && w != v ==> ViewOf(regs[..], w) == ViewOf(old(regs[..]), w)
      ensures Situation() == Start(Setup(), old(Situation()), Resolved(Setup(), channel, note), note, velocity)
    {
      hide MelodicOk, AllMelodic, Stamps, ViewOf, BestVoice, OnlyVoice, VelocityLevel, Pitch, DrumStruck, Struck;
      var c := if midiDrums && channel == 9 then DrumChannel(note) else channel;
      ghost var s := Situation();
      if c > 10 && percussive {
        PercNoteOn(c, note, velocity);
        assert Situation().views == Start(Setup(), s, c, note, velocity).views;
      } else {
        ghost var r := regs[..];
        ghost var v := MelodicNoteOn(c, note, velocity);
        OtherVoices(r, regs[..], v);
        assert Situation().views == Start(Setup(), s, c, note, velocity).views;
      }
    }

    /** Releases a drum, unless its voice has another note by now. */
    method StopDrum(c: nat, note: byte)
      requires Valid() && percussive && 11 <= c < 16
      modifies regs, chOPL
      ensures Valid() && Situation() == Stop(Setup(), old(Situation()), c, note)
    {
      hide MelodicOk, AllMelodic, Stamps, ViewOf, OnlyVoice;
      ghost var voices0, r0, s := chOPL[..], regs[..], Situation();
      var v := PercVoice(c);
      if chOPL[v].note != note {
        return;
      }
      RhythmRegister(r0, ClearBit(regs[RHYTHM], RhythmBit(c)));
      WriteOPL(RHYTHM, ClearBit(regs[RHYTHM], RhythmBit(c)));
      chOPL[v] := chOPL[v].(start := 0);
      assert chOPL[..] == voices0[v := chOPL[v]];
      NewStamp(voices0, noteCount, v, chOPL[v]);
      SameViews(voices0, r0, regs[..], v, chOPL[v], chMIDI[..], instruments, fnums, Voices(), Owners());
      assert Situation().views == s.views;
    }

    /** Releases the voices that sound a note of a channel. */
    method StopVoices(c: nat, note: byte)
      requires Valid() && c < 16
      modifies regs, chOPL
      ensures Valid() && regs[RHYTHM] == old(regs[RHYTHM])
      ensures forall i :: 0 <= i < 9 ==>
                var was := old(chOPL[..])[i];
                && chOPL[i] == (if i < Voices() then Released(was, c, note) else was)
                && ViewOf(regs[..], i) == (if i < Voices() then Quieted(ViewOf(old(regs[..]), i), was, c, note) else ViewOf(old(regs[..]), i))
    {
      hide MelodicOk, AllMelodic, Stamps, ViewOf, OnlyVoice;
      ghost var voices0, r0 := chOPL[..], regs[..];
      var n := Voices();
      for i := 0 to n
        invariant Valid() && regs[RHYTHM] == r0[RHYTHM]
        invariant forall j :: 0 <= j < 9 ==>
          && chOPL[j] == (if j < i then Released(voices0[j], c, note) else voices0[j])
          && ViewOf(regs[..], j) == (if j < i then Quieted(ViewOf(r0, j), voices0[j], c, note) else ViewOf(r0, j))
      {
        if chOPL[i].channel == c && chOPL[i].note == note && chOPL[i].start != 0 {
          ghost var voices, r := chOPL[..], regs[..];
          HiOf(r, i);
          chOPL[i] := chOPL[i].(start := 0);
          KeyOff(i);
          assert chOPL[..] == voices[i := chOPL[i]];
          NewStamp(voices, noteCount, i, chOPL[i]);
          ParkedOk(voices, r, i, chMIDI[..], instruments, fnums, n, Owners());
          OneVoice(voices, r, regs[..], i, chOPL[i], chMIDI[..], instruments, fnums, n, Owners());
          OtherVoices(r, regs[..], i);
        }
      }
    }

    method NoteOff(channel: nat, note: byte)
      requires Valid() && channel < 16
      modifies regs, chOPL
      ensures Valid()
      ensures Situation() == Stop(Setup(), old(Situation()), Resolved(Setup(), channel, note), note)
    {
      hide MelodicOk, AllMelodic, Stamps, ViewOf, OnlyVoice;
      var c := if midiDrums && channel == 9 then DrumChannel(note) else channel;
      ghost var s := Situation();
      if c > 10 && percussive {
        StopDrum(c, note);
      } else {
        StopVoices(c, note);
        ghost var t := Stop(Setup(), s, c, note);
        assert Situation().views == t.views && chOPL[..] == t.voices;
      }
    }

    /** Released voices of a channel no longer count as its own. */
    method ForgetParked(channel: nat, n: nat)
      requires chOPL.Length == 9 && n <= 9
      modifies chOPL
      ensures forall j :: 0 <= j < 9 ==> chOPL[j] == if j < n then Forgotten(old(chOPL[j]), channel) else old(chOPL[j])
    {
      for i := 0 to n
        invariant forall j :: 0 <= j < 9 ==> chOPL[j] == if j < i then Forgotten(old(chOPL[j]), channel) else old(chOPL[j])
      {
        if chOPL[i].start == 0 && chOPL[i].channel == channel {
          chOPL[i] := chOPL[i].(channel := -1);
        }
      }
    }

    /** The sounding voices of a channel get its new patch. */
    method PatchSounding(channel: nat, patch: nat, n: nat, ghost voices0: seq<Voice>, ghost before: seq<Channel>, ghost now: seq<Channel>)
      requires Shape() && n == Voices() && channel < Owners() && patch < instCount && patch < 0x100 && |voices0| == 9 && |before| == |now| == 16
      requires now == before[channel := before[channel].(patch := patch)]
      requires AllMelodic(voices0, regs[..], before, instruments, fnums, n, Owners())
      requires forall j :: 0 <= j < 9 ==> chOPL[j] == if j < n then Forgotten(voices0[j], channel) else voices0[j]
      modifies regs, chOPL
      ensures forall j :: 0 <= j < 9 ==> chOPL[j] == if j < n then Reprogrammed(voices0[j], channel, patch) else voices0[j]
      ensures forall j :: 0 <= j < n ==> MelodicOk(chOPL[j], ViewOf(regs[..], j), now, instruments, fnums, Owners())
      ensures regs[RHYTHM] == old(regs[RHYTHM])
      ensures forall j :: 0 <= j < 9 ==>
                ViewOf(regs[..], j) == if j < n then Reloaded(old(ViewOf(regs[..], j)), voices0[j], channel, instruments[patch]) else old(ViewOf(regs[..], j))
    {
      hide MelodicOk, AllMelodic, ViewOf, OnlyVoice, Programmed;
      ghost var voices1, r0, owners := chOPL[..], regs[..], Owners();
      ParkedOrElsewhere(voices0, r0, channel, before, now, instruments, fnums, n, owners);
      for i := 0 to n
        modifies chOPL, regs
        invariant forall j :: 0 <= j < 9 ==>
          chOPL[j] == if j < i then Reprogrammed(voices0[j], channel, patch) else voices1[j]
        invariant regs[RHYTHM] == r0[RHYTHM]
        invariant forall j :: 0 <= j < 9 ==>
          ViewOf(regs[..], j) == if j < i then Reloaded(ViewOf(r0, j), voices0[j], channel, instruments[patch]) else ViewOf(r0, j)
        invariant forall j :: 0 <= j < i ==> MelodicOk(chOPL[j], ViewOf(regs[..], j), now, instruments, fnums, owners)
      {
        ghost var r := regs[..];
        if chOPL[i].start > 0 && chOPL[i].channel == channel {
          ChangeInstrument(i, channel, patch);
          OtherVoices(r, regs[..], i);
          PatchedOk(voices0, r0, i, channel, before, now, instruments, fnums, n, owners);
        }
      }
    }

    /** A program change: what the channel merely parked counts as never used, what it is playing
        changes its patch at once. */
    method ProgramChange(channel: nat, requested: byte)
      requires Valid() && channel < 16
      modifies regs, chOPL, chMIDI
      ensures Valid()
      ensures chMIDI[..] == old(chMIDI[..])[channel := old(chMIDI[channel]).(patch := requested % instCount)]
      ensures channel < Owners() ==> forall i :: 0 <= i < 9 ==>
                chOPL[i] == if i < Voices() then Reprogrammed(old(chOPL[..])[i], channel, requested % instCount) else old(chOPL[..])[i]
      ensures Situation() == CmfMachine.Patched(Setup(), old(Situation()), channel, requested)
    {
      hide MelodicOk, AllMelodic, Stamps, ViewOf, OnlyVoice, Programmed;
      ghost var before, voices0, r0, s := chMIDI[..], chOPL[..], regs[..], Situation();
      var patch := requested % instCount;
      chMIDI[channel] := chMIDI[channel].(patch := patch);
      ghost var now := chMIDI[..];
      ghost var owners := Owners();
      if !percussive || channel < 11 {
        var n := Voices();
        ParkedOrElsewhere(voices0, r0, channel, before, now, instruments, fnums, n, owners);
        ForgetParked(channel, n);
        PatchSounding(channel, patch, n, voices0, before, now);
      } else {
        ChangeInstrument(PercVoice(channel), channel, patch);
        OtherVoices(r0, regs[..], PercVoice(channel));
        ParkedOrElsewhere(voices0, r0, channel, before, now, instruments, fnums, Voices(), owners);
      }
      assert chMIDI[..] == now;
      Collect(chOPL[..], regs[..], now, Voices());
      SameStamps(voices0, chOPL[..], noteCount);
      assert VoicesOk();
      assert StampsOk();
      assert ChannelsOk();
      ghost var t := CmfMachine.Patched(Setup(), s, channel, requested);
      assert Situation().views == t.views && chOPL[..] == t.voices;
    }

    lemma Collect(voices: seq<Voice>, r: seq<byte>, channels: seq<Channel>, n: nat)
      requires Shape() && |channels| == 16 && n <= 9 == |voices| && |r| == 256
      requires forall i :: 0 <= i < n ==> MelodicOk(voices[i], ViewOf(r, i), channels, instruments, fnums, Owners())
      ensures AllMelodic(voices, r, channels, instruments, fnums, n, Owners())
    {
    }

    method PitchBend(channel: nat, lsb: byte, msb: byte)
      requires Valid() && channel < 16
      modifies regs, chMIDI
      ensures Valid()
      ensures chMIDI[..] == old(chMIDI[..])[channel := old(chMIDI[channel]).(pitchbend := Bend(lsb, msb))]
      ensures Situation() == Bent(Setup(), old(Situation()), channel, Bend(lsb, msb))
    {
      hide MelodicOk, ViewOf;
      ghost var before := chMIDI[..];
      chMIDI[channel] := chMIDI[channel].(pitchbend := Bend(lsb, msb));
      Expand(chOPL[..], regs[..], before);
      NoteUpdate(channel, before);
    }

    lemma Expand(voices: seq<Voice>, r: seq<byte>, channels: seq<Channel>)
      requires Shape() && |channels| == 16 && 9 == |voices| && |r| == 256
      requires AllMelodic(voices, r, channels, instruments, fnums, Voices(), Owners())
      ensures forall i :: 0 <= i < Voices() ==> MelodicOk(voices[i], ViewOf(r, i), channels, instruments, fnums, Owners())
    {
    }

    method Transpose(channel: nat, amount: int)
      requires Valid() && channel < 16 && -255 <= amount <= 255
      modifies regs, chMIDI
      ensures Valid()
      ensures chMIDI[..] == old(chMIDI[..])[channel := old(chMIDI[channel]).(transpose := amount)]
      ensures Situation() == Transposed(Setup(), old(Situation()), channel, amount)
    {
      hide MelodicOk, ViewOf;
      ghost var before := chMIDI[..];
      chMIDI[channel] := chMIDI[channel].(transpose := amount);
      Expand(chOPL[..], regs[..], before);
      NoteUpdate(channel, before);
    }

    /** Switches rhythm mode on or off: all voices are freed, all patches reset. */
    method RhythmModeReset(perc: bool)
      requires Shape() && StampsOk() && forall c :: 0 <= c < 16 ==> ChannelOk(chMIDI[c]) && chMIDI[c].patch < |instruments|
      modifies this`percussive, regs, chOPL, chMIDI
      ensures Valid() && percussive == perc
      ensures forall i :: 0 <= i < 9 ==> chOPL[i] == Voice(0, -1, -1, -1) && ViewOf(regs[..], i) == ResetView(ViewOf(old(regs[..]), i))
      ensures forall c :: 0 <= c < 16 ==> chMIDI[c] == old(chMIDI[..])[c].(patch := ResetPatch(|instruments|, midiDrums, c, perc))
      ensures regs[RHYTHM] == if perc then 0xE0 else 0xC0
      ensures Situation() == Switched(Setup(), old(Situation()), perc)
    {
      hide ViewOf, OnlyVoice, WithOperator, Programmed, Stamps;
      ghost var s := Situation();
      percussive := perc;
      ghost var r0 := regs[..];
      WriteOPL(8, 0);
      OutsideVoices(r0, 8, 0);
      for i := 0 to 9
        modifies chOPL, regs
        invariant forall j :: 0 <= j < 9 ==> ViewOf(regs[..], j) == if j < i then ResetView(ViewOf(r0, j)) else ViewOf(r0, j)
        invariant forall j :: 0 <= j < i ==> chOPL[j] == Voice(0, -1, -1, -1)
      {
        ghost var r := regs[..];
        LoadInit(i);
        OtherVoices(r, regs[..], i);
        chOPL[i] := Voice(0, -1, -1, -1);
      }
      ghost var r1 := regs[..];
      ResetPatches(perc);
      assert regs[..] == r1;
      WriteOPL(RHYTHM, if perc then 0xE0 else 0xC0);
      RhythmRegister(r1, regs[RHYTHM]);
      AllFree();
      ghost var t := Switched(Setup(), s, perc);
      assert Situation().views == t.views && chOPL[..] == t.voices && chMIDI[..] == t.channels;
    }

    method ResetPatches(perc: bool)
      requires Shape()
      modifies chMIDI
      ensures forall c :: 0 <= c < 16 ==> chMIDI[c] == old(chMIDI[..])[c].(patch := ResetPatch(|instruments|, midiDrums, c, perc))
    {
      for c := 0 to 16
        invariant forall j :: 0 <= j < 16 ==> chMIDI[j] == if j < c then old(chMIDI[..])[j].(patch := 0) else old(chMIDI[..])[j]
      {
        chMIDI[c] := chMIDI[c].(patch := 0);
      }
      if midiDrums && perc {
        for c := 11 to 16
          invariant forall j :: 0 <= j < 16 ==>
            chMIDI[j] == old(chMIDI[..])[j].(patch := if j < c then ResetPatch(|instruments|, midiDrums, j, perc) else 0)
        {
          chMIDI[c] := chMIDI[c].(patch := |instruments| - 5 + (c - 11));
        }
      }
    }

    /** The registers of one voice, set to the default instrument. */
    method LoadInit(voice: nat)
      requires Shape() && voice < 9
      modifies regs
      ensures OnlyVoice(old(regs[..]), regs[..], voice)
      ensures ViewOf(regs[..], voice) == ResetView(ViewOf(old(regs[..]), voice))
    {
      ghost var r := regs[..];
      var op, connection := INIT_INSTRUMENT.op, INIT_INSTRUMENT.connection;
      ghost var r1 := WithOperator(r, voice, 0, op[0], connection);
      WrittenOnlyThere(r, voice, 0, op[0], connection);
      WrittenOnlyThere(r1, voice, 1, op[1], connection);
      WrittenView(r, voice, 0, op[0], connection);
      WrittenView(r1, voice, 1, op[1], connection);
      hide ViewOf, OnlyVoice;
      var o := Off(voice);
      for dest := 0 to 2
        invariant regs[..] == if dest == 0 then r else if dest == 1 then r1 else WithOperator(r1, voice, 1, op[1], connection)
      {
        WriteOPL(0x20 + o + 3 * dest, op[dest].charMult);
        WriteOPL(0x40 + o + 3 * dest, op[dest].scalOutput);
        WriteOPL(0x60 + o + 3 * dest, op[dest].attackDecay);
        WriteOPL(0x80 + o + 3 * dest, op[dest].sustRelease);
        WriteOPL(0xE0 + o + 3 * dest, op[dest].waveSel);
        WriteOPL(0xC0 + voice, connection);
      }
      OnlyVoiceTwice(r, r1, regs[..], voice);
    }

    lemma AllFree()
      requires Shape() && forall i :: 0 <= i < 9 ==> chOPL[i] == Voice(0, -1, -1, -1)
      ensures VoicesOk() && StampsOk()
    {
    }

    method MidiController(channel: nat, controller: byte, value: byte)
      requires Valid() && channel < 16
      modifies this`percussive, regs, chOPL, chMIDI
      ensures Valid()
      ensures controller == 0x67 ==> percussive == (value != 0) && forall i :: 0 <= i < 9 ==> chOPL[i].channel == -1
      ensures controller == 0x68 ==> chMIDI[channel].transpose == value
      ensures controller == 0x69 ==> chMIDI[channel].transpose == -(value as int)
      ensures controller != 0x67 ==> percussive == old(percussive) && chOPL[..] == old(chOPL[..])
      ensures controller == 0x63 ==> regs[..] == old(regs[..])[RHYTHM := old(regs[RHYTHM]) % 64 + value % 4 * 64]
      ensures controller !in {0x63, 0x67, 0x68, 0x69} ==> regs[..] == old(regs[..])
      ensures controller !in {0x67, 0x68, 0x69} ==> chMIDI[..] == old(chMIDI[..])
      ensures Situation() == Controlled(Setup(), old(Situation()), channel, controller, value)
    {
      ghost var s := Situation();
      hide MelodicOk, AllMelodic, Stamps, ViewOf;
      if controller == 0x63 {
        ghost var r := regs[..];
        WriteOPL(RHYTHM, regs[RHYTHM] % 64 + value % 4 * 64);
        RhythmRegister(r, regs[RHYTHM]);
        Expand(chOPL[..], r, chMIDI[..]);
        Collect(chOPL[..], regs[..], chMIDI[..], Voices());
        assert Situation().views == s.views;
      } else if controller == 0x67 {
        RhythmModeReset(value != 0);
      } else if controller == 0x68 {
        Transpose(channel, value);
      } else if controller == 0x69 {
        Transpose(channel, -(value as int));
      }
    }

    /** A song begins: the shadow is cleared, every voice free, every channel on patch 0. */
    method Rewind()
      requires Shape()
      modifies this, regs, chOPL, chMIDI, notePlaying, noteFix
      ensures Valid() && noteCount == 0
      ensures percussive == (midiDrums || old(percussive))
      ensures forall i :: 0 <= i < 9 ==> chOPL[i] == FREE
      ensures forall c :: 0 <= c < 16 ==> chMIDI[c] == Channel(ResetPatch(|instruments|, midiDrums, c, midiDrums), 8192, 0)
      ensures Situation() == Beginning(Setup(), old(percussive))
    {
      hide ViewOf, Programmed, Stamps;
      noteCount := 0;
      forall i | 0 <= i < 9 { chOPL[i] := FREE; }
      forall c | 0 <= c < 16 { chMIDI[c] := Channel(0, 8192, 0); }
      forall k | 0 <= k < 256 { regs[k] := 0; }
      forall c | 0 <= c < 16 { notePlaying[c] := 255; }
      forall c | 0 <= c < 16 { noteFix[c] := false; }
      AllFree();
      AllZero(regs[..]);
      ghost var t := Blank(Setup(), percussive);
      assert notePlaying[..] == t.playing && noteFix[..] == t.fix;
      assert Situation().views == t.views && chOPL[..] == t.voices && chMIDI[..] == t.channels;
      hide Blank, Switched;
      if midiDrums {
        RhythmModeReset(true);
      }
    }
  }

  lemma AllZero(regs: seq<byte>)
    requires |regs| == 256 && forall k :: 0 <= k < 256 ==> regs[k] == 0
    ensures forall i :: 0 <= i < 9 ==> ViewOf(regs, i) == SILENT
  {
  }

  /** The repair of doubled notes: the velocity at which an event is heard. */
  method Repair(p: Player, channel: nat, note: byte, velocity: byte) returns (v: byte)
    requires p.Shape() && channel < 16
    modifies p.notePlaying, p.noteFix
    ensures var doubled := old(p.notePlaying[channel]) == note; var fix := old(p.noteFix[channel]);
            && v == Effective(velocity, doubled, fix)
            && p.notePlaying[..] == old(p.notePlaying[..])[channel := if v != 0 then note else 255]
            && p.noteFix[..] == old(p.noteFix[..])[channel := velocity != 0 && (doubled || fix)]
  {
    v := velocity;
    if v != 0 {
      if p.notePlaying[channel] == note {
        v := 0;
        p.noteFix[channel] := true;
      }
    } else if p.noteFix[channel] {
      v := 127;
      p.noteFix[channel] := false;
    }
    p.notePlaying[channel] := if v != 0 then note else 255;
  }

  /** A note-on event, after the repair of doubled notes. */
  method PlayNote(p: Player, channel: nat, note: byte, velocity: byte)
    requires p.Valid() && channel < 16
    modifies p, p.regs, p.chOPL, p.notePlaying, p.noteFix
    ensures p.Valid()
    ensures p.Situation() == Noted(p.Setup(), old(p.Situation()), channel, note, velocity)
    ensures Sane(old(p.Situation())) ==> Sane(p.Situation()) && NoteLaw(p.Setup(), old(p.Situation()), p.Situation(), channel, note, velocity)
  {
    hide MelodicOk, AllMelodic, Stamps, ViewOf, Start, Stop, Sane, NoteLaw;
    ghost var s := p.Situation();
    var v := Repair(p, channel, note, velocity);
    if v != 0 {
      p.NoteOn(channel, note, v);
    } else {
      p.NoteOff(channel, note);
    }
    if Sane(s) {
      NotedIsLawful(p.Setup(), s, channel, note, velocity);
      StepSane(p.Setup(), s, NoteOn(channel, note, velocity));
    }
  }

  /** One event. */
  method PlayEvent(p: Player, ev: Event)
    requires p.Valid() && ev.channel < 16
    modifies p, p.regs, p.chOPL, p.chMIDI, p.notePlaying, p.noteFix
    ensures p.Valid() && p.Situation() == After(p.Setup(), old(p.Situation()), ev)
  {
    hide MelodicOk, AllMelodic, Stamps, ViewOf, Start, Stop, Noted, Controlled, CmfMachine.Patched, Bent;
    match ev {
      case NoteOff(c, note) => p.NoteOff(c, note);
      case NoteOn(c, note, velocity) => PlayNote(p, c, note, velocity);
      case Controller(c, number, value) => p.MidiController(c, number, value);
      case Program(c, patch) => p.ProgramChange(c, patch);
      case PitchBend(c, lsb, msb) => p.PitchBend(c, lsb, msb);
    }
  }

  /** A song, from the start, through any events: voices, channels and registers end as the machine has
      them.  So voices that a channel owns carry its current patch, in the allocator and in the registers;
      voices that sound do so at the current pitch of their note, key on; and no two of them have the same
      start stamp. */
  method Play(p: Player, song: seq<Event>)
    requires p.Shape() && forall e :: e in song ==> e.channel < 16
    modifies p, p.regs, p.chOPL, p.chMIDI, p.notePlaying, p.noteFix
    ensures p.Valid()
    ensures p.Situation() == AfterAll(p.Setup(), Beginning(p.Setup(), old(p.percussive)), song) && Sane(p.Situation())
    ensures forall i :: 0 <= i < p.Voices() && p.chOPL[i].channel >= 0 ==>
              var v := p.chOPL[i];
              && v.channel < 16 && 0 <= v.patch < |p.instruments|
              && v.patch == p.chMIDI[v.channel].patch && Programmed(ViewOf(p.regs[..], i), p.instruments[v.patch])
    ensures forall i :: 0 <= i < p.Voices() && p.chOPL[i].start > 0 ==>
              var v := p.chOPL[i];
              0 <= v.channel < 16 && Plays(ViewOf(p.regs[..], i), p.fnums, Pitch(p.chMIDI[v.channel], v.note))
    ensures forall i, j :: 0 <= i < j < 9 && p.chOPL[i].start > 0 ==> p.chOPL[i].start != p.chOPL[j].start
  {
    ghost var s := Beginning(p.Setup(), p.percussive);
    PlayAll(p, song);
    BeginningSane(p.Setup(), old(p.percussive));
    RunSane(p.Setup(), s, song, 0, |song|);
    assert song[..|song|] == song;
    AllOk(p);
  }

  method PlayAll(p: Player, song: seq<Event>)
    requires p.Shape() && forall e :: e in song ==> e.channel < 16
    modifies p, p.regs, p.chOPL, p.chMIDI, p.notePlaying, p.noteFix
    ensures p.Valid()
    ensures p.Situation() == AfterAll(p.Setup(), Beginning(p.Setup(), old(p.percussive)), song)
  {
    hide After, Beginning, ViewOf, MelodicOk, AllMelodic, Stamps;
    ghost var s := Beginning(p.Setup(), p.percussive);
    p.Rewind();
    for k := 0 to |song|
      invariant p.Valid() && p.Situation() == AfterAll(p.Setup(), s, song[..k])
    {
      assert song[..k + 1][..k] == song[..k];
      PlayEvent(p, song[k]);
    }
    assert song[..|song|] == song;
  }

  /** What it means that a player is in order. */
  lemma AllOk(p: Player)
    requires p.Valid()
    ensures forall i :: 0 <= i < p.Voices() ==>
              MelodicOk(p.chOPL[i], ViewOf(p.regs[..], i), p.chMIDI[..], p.instruments, p.fnums, p.Owners())
    ensures forall i, j :: 0 <= i < j < 9 && p.chOPL[i].start > 0 ==> p.chOPL[i].start != p.chOPL[j].start
  {
  }
}
