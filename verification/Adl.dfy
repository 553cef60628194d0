/** AdLibDriver of src/adl.cpp: queueing programs and starting them on their channels, in place. */
module Adl {
  import opened Wrappers
  import opened Bits
  import opened AdlSpec
  import opened AdlMachine
  import opened AdlLaws

  class Driver {
    const version: nat
    const programQueue: array<Entry>
    const channels: array<Channel>
    var soundData: array<byte>
    var queueStart: nat
    var queueEnd: nat
    var startTimeout: nat
    var retrySounds: bool
    var sfx: Option<Sfx>
    var musicVolume: byte
    var sfxVolume: byte
    var rhythmSectionBits: byte
    ghost var writes: seq<(nat, byte)>    // what was written to the chip
    ghost var original: seq<byte>         // the data as loaded

    ghost function Queue(): Ring
      reads this, programQueue
    {
      Ring(programQueue[..], queueStart, queueEnd)
    }

    ghost function Settings(): AdlMachine.Settings
      reads this
    {
      AdlMachine.Settings(version, musicVolume, sfxVolume, rhythmSectionBits)
    }

    ghost function Situation(): AdlMachine.Situation
      reads this, programQueue, channels, soundData
    {
      AdlMachine.Situation(Queue(), soundData[..], sfx, channels[..], startTimeout, retrySounds, writes)
    }

    /** Whatever was started, the data is as it was loaded but for the current effect. */
    ghost predicate DataOk()
      reads this, soundData
    {
      SfxInside(soundData[..], sfx) && Unpatched(soundData[..], sfx) == original
    }

    ghost predicate Valid()
      reads this, programQueue, soundData
    {
      programQueue.Length == SLOTS && channels.Length == 10 && IsRing(Queue()) && DataOk()
    }

    constructor (version: nat)
      ensures Valid() && fresh(programQueue) && fresh(channels) && fresh(soundData)
      ensures Clean(Queue()) && Pending(Queue()) == [] && !retrySounds
    {
      this.version := version;
      programQueue := new Entry[SLOTS](_ => NONE);
      channels := new Channel[10](_ => IDLE);
      soundData := new byte[0];
      queueStart, queueEnd, startTimeout, retrySounds, sfx, original := 0, 0, 0, false, None, [];
      musicVolume, sfxVolume, rhythmSectionBits, writes := 0xFF, 0xFF, 0, [];
    }

    method SetSoundData(data: array<byte>)
      requires Valid()
      modifies this`soundData, this`sfx, this`queueStart, this`queueEnd, this`original, programQueue
      ensures Valid() && soundData == data && original == data[..] && sfx == None
      ensures Queue() == Reset(old(Queue()))
    {
      queueStart, queueEnd := 0, 0;
      programQueue[0] := NONE;
      sfx := None;
      soundData := data;
      original := data[..];
    }

    /** Clears the key bit of a channel, in its register and on the chip. */
    method NoteOff(chan: nat)
      requires Valid() && chan < 10
      modifies this`writes, channels
      ensures channels[..] == old(channels[..])[chan := Silenced(old(channels[chan]), rhythmSectionBits, chan)]
      ensures writes == old(writes) + NoteOffWrites(old(channels[chan]), rhythmSectionBits, chan)
    {
      if chan >= 9 {
        return;
      }
      if rhythmSectionBits != 0 && chan >= 6 {
        return;
      }
      channels[chan] := channels[chan].(regBx := ClearKey(channels[chan].regBx));
      writes := writes + [(0xB0 + chan, channels[chan].regBx)];
    }

    method StopAllChannels()
      requires Valid()
      modifies this`retrySounds, this`queueStart, this`queueEnd, this`startTimeout, this`writes, programQueue, channels
      ensures Valid() && Queue() == Reset(old(Queue())) && !retrySounds && startTimeout == 0
      ensures forall c :: 0 <= c < 10 ==> channels[c] == Silenced(old(channels[c]), rhythmSectionBits, c).(priority := 0, dataptr := None)
      ensures writes == old(writes) + StopWrites(old(channels[..]), rhythmSectionBits, 10)
    {
      ghost var was := channels[..];
      for channel := 0 to 10
        modifies channels, this`writes
        invariant forall c :: 0 <= c < 10 ==>
          channels[c] == if c < channel then Silenced(was[c], rhythmSectionBits, c).(priority := 0, dataptr := None) else was[c]
        invariant writes == old(writes) + StopWrites(was, rhythmSectionBits, channel)
      {
        channels[channel] := channels[channel].(priority := 0, dataptr := None);
        if channel != 9 {
          NoteOff(channel);
        }
      }
      retrySounds := false;
      queueStart, queueEnd := 0, 0;
      programQueue[0] := NONE;
      startTimeout := 0;
    }

    method GetProgram(progId: int) returns (p: Option<nat>)
      ensures p == ProgramAt(soundData[..], progId)
    {
      if progId < 0 || progId >= soundData.Length / 2 {
        return None;
      }
      var offset := soundData[2 * progId] as int + soundData[2 * progId + 1] as int * 0x100;
      if offset == 0 || offset >= soundData.Length {
        return None;
      }
      p := Some(offset);
    }

    /** Queues a program; dropped if there is none of that number or the queue is full. */
    method StartSound(track: int, volume: int)
      requires Valid()
      modifies this`queueEnd, programQueue
      ensures Valid()
      ensures var p := ProgramAt(soundData[..], track);
              Queue() == Ring1(old(Queue()), Enqueue(Entry(p, track % 0x100, volume % 0x100)))
    {
      var trackData := GetProgram(track);
      if trackData == None {
        return;
      }
      if queueEnd == queueStart && programQueue[queueEnd].data != None {
        return;
      }
      programQueue[queueEnd] := Entry(trackData, track % 0x100, volume % 0x100);
      queueEnd := (queueEnd + 1) % SLOTS;
    }

    /** Restores the data of the last effect, then patches in the one at `ptr`. */
    method AdjustSfxData(ptr: nat, volume: byte)
      requires SfxInside(soundData[..], sfx) && CanAdjust(soundData[..], sfx, ptr)
      modifies this`sfx, soundData
      ensures (soundData[..], sfx) == Adjusted(version, old(soundData[..]), old(sfx), ptr, volume)
    {
      hide Scaled;
      ghost var a := soundData[..];
      if sfx.Some? {
        soundData[sfx.value.ptr + 1] := sfx.value.priority;
        soundData[sfx.value.ptr + 3] := sfx.value.velocity;
      }
      ghost var d := Unpatched(a, sfx);
      assert soundData[..] == d;
      sfx := None;
      if soundData[ptr] == 9 {
        return;
      }
      sfx := Some(Sfx(ptr, soundData[ptr + 1], soundData[ptr + 3]));
      var (p, v) := Scaled(version, volume, soundData[ptr + 1], soundData[ptr + 3]);
      soundData[ptr + 1] := p;
      soundData[ptr + 3] := v;
      assert soundData[..] == Patched(d, ptr, p, v);
    }

    /** Clears the registers of a channel and keys it on. */
    method InitAdlibChannel(chan: nat)
      requires chan < 10
      modifies this`writes
      ensures writes == old(writes) + StartWrites(rhythmSectionBits, chan)
    {
      if chan >= 9 {
        return;
      }
      if rhythmSectionBits != 0 && chan >= 6 {
        return;
      }
      var offset := REG_OFFSET[chan];
      writes := writes + [(0x60 + offset, 0xFF), (0x63 + offset, 0xFF), (0x80 + offset, 0xFF), (0x83 + offset, 0xFF)];
      writes := writes + [(0xB0 + chan, 0)];
      writes := writes + [(0xB0 + chan, 0x20)];
    }

    /** Whether AdjustSfxData stays inside the data; the original does not ask. */
    method PatchesInside(ptr: nat) returns (inside: bool)
      requires Valid() && ptr < soundData.Length
      ensures inside <==> CanAdjust(soundData[..], sfx, ptr)
    {
      var chan := soundData[ptr];
      if sfx.Some? && ptr == sfx.value.ptr + 1 {
        chan := sfx.value.priority;
      } else if sfx.Some? && ptr == sfx.value.ptr + 3 {
        chan := sfx.value.velocity;
      }
      inside := chan == 9 || ptr + 4 <= soundData.Length;
    }

    /** Starts a program on its channel, unless it is malformed or the channel is busy with something
        more important. */
    method StartProgram(ptr: nat, volume: byte) returns (out: Outcome)
      requires Valid()
      modifies this`startTimeout, this`sfx, this`writes, channels, soundData
      ensures Valid() && out == OutcomeOf(version, old(soundData[..]), old(sfx), old(channels[..]), ptr, volume)
      ensures (soundData[..], sfx) == if out.Malformed? || out.OutsideData? then (old(soundData[..]), old(sfx))
                                      else Adjusted(version, old(soundData[..]), old(sfx), ptr, volume)
      ensures channels[..] ==
                if out.Started?
                then old(channels[..])[out.chan := Playing(out.priority, ptr + 2, if out.chan <= 5 then musicVolume else sfxVolume)]
                else old(channels[..])
      ensures startTimeout == if out.Started? then 2 else old(startTimeout)
      ensures writes == old(writes) + if out.Started? then StartWrites(rhythmSectionBits, out.chan) else []
    {
      hide Adjusted, Unpatched, StartWrites;
      if ptr + 2 > soundData.Length {
        return Malformed;
      }
      var chan := soundData[ptr];
      if chan > 9 || (chan < 9 && ptr + 4 > soundData.Length) {
        return Malformed;
      }
      var inside := PatchesInside(ptr);
      if !inside {
        return OutsideData;
      }
      AdjustSfxData(ptr, volume);
      var priority := soundData[ptr + 1];
      if priority >= channels[chan].priority {
        channels[chan] := Playing(priority, ptr + 2, if chan <= 5 then musicVolume else sfxVolume);
        InitAdlibChannel(chan);
        startTimeout := 2;
        return Started(chan, priority);
      }
      out := Outranked;
    }

    /** Takes the first entry off the queue and starts it.  While sounds are retried, one that is
        outranked is queued again. */
    method SetupPrograms()
      requires Valid()
      modifies this`queueStart, this`queueEnd, this`startTimeout, this`retrySounds, this`sfx, this`writes, programQueue, channels, soundData
      ensures Valid()
      ensures LooksEmpty(old(Queue())) ==>
                && Queue() == old(Queue()) && channels[..] == old(channels[..]) && soundData[..] == old(soundData[..])
                && sfx == old(sfx) && startTimeout == old(startTimeout) && retrySounds == old(retrySounds) && writes == old(writes)
      ensures !LooksEmpty(old(Queue())) ==>
                var q := old(Queue());
                var e := q.slots[q.start];
                var out := if e.data == None then Malformed
                           else OutcomeOf(version, old(soundData[..]), old(sfx), old(channels[..]), e.data.value, e.volume);
                && retrySounds == (old(retrySounds) || e.id == 0)
                && startTimeout == (if out.Started? then 2 else old(startTimeout))
                && channels[..] == (if out.Started?
                                    then old(channels[..])[out.chan := Playing(out.priority, e.data.value + 2, if out.chan <= 5 then musicVolume else sfxVolume)]
                                    else old(channels[..]))
                && (soundData[..], sfx) == (if out.Malformed? || out.OutsideData? then (old(soundData[..]), old(sfx))
                                            else Adjusted(version, old(soundData[..]), old(sfx), e.data.value, e.volume))
                && writes == old(writes) + (if out.Started? then StartWrites(rhythmSectionBits, out.chan) else [])
                && Queue() == if out.Outranked? && old(retrySounds) && e.id != 0
                              then Ring1(Take(q), Enqueue(Entry(ProgramAt(soundData[..], e.id), e.id, e.volume)))
                              else Take(q)
    {
      hide Ring1, Adjusted, ProgramAt, Unpatched, OutcomeOf, StartWrites;
      ghost var q := Queue();
      var entry := programQueue[queueStart];
      if queueStart == queueEnd && entry.data == None {
        return;
      }
      var retry := NONE;
      if entry.id == 0 {
        retrySounds := true;
      } else if retrySounds {
        retry := entry;
      }
      programQueue[queueStart] := entry.(data := None);
      queueStart := (queueStart + 1) % SLOTS;
      assert Queue() == Take(q);
      if entry.data == None {
        return;
      }
      var out := StartProgram(entry.data.value, entry.volume);
      if out.Outranked? && retry.data != None {
        StartSound(retry.id, retry.volume);
      }
    }

    /** The timer callback, as far as the queue goes: two calls pass after a start. */
    method Callback()
      requires Valid()
      modifies this`queueStart, this`queueEnd, this`startTimeout, this`retrySounds, this`sfx, this`writes, programQueue, channels, soundData
      ensures Valid() && Situation() == After(Settings(), old(Situation()), Tick)
      ensures |old(soundData[..])| == |soundData[..]| && TickLaw(old(Situation()), Situation())
    {
      hide TickLaw;
      hide Put, Take, OutcomeOf, Adjusted, StartWrites, ProgramAt, Unpatched;
      ghost var s := Situation();
      OneOrTwo(s.ring, OpsOf(Settings(), s, Tick));
      TickIsLawful(Settings(), s);
      if startTimeout > 0 {
        startTimeout := startTimeout - 1;
      } else {
        SetupPrograms();
      }
    }
  }

  lemma OneOrTwo(r: Ring, ops: seq<Op>)
    requires IsRing(r)
    ensures ops == [] ==> RingRun(r, ops) == r
    ensures |ops| == 1 ==> RingRun(r, ops) == Ring1(r, ops[0])
    ensures |ops| == 2 ==> RingRun(r, ops) == Ring1(Ring1(r, ops[0]), ops[1])
  {
    hide Ring1;
    if |ops| == 2 {
      assert RingRun(Ring1(r, ops[0]), ops[1..]) == RingRun(Ring1(Ring1(r, ops[0]), ops[1..][0]), []);
    }
  }
}
