/** What a timer callback of the Westwood ADL driver may do to the channels, by the bytes of the program
    at the head of the queue (setupPrograms of src/adl.cpp). */
module AdlLaws {
  import opened Wrappers
  import opened Bits
  import opened AdlSpec
  import opened AdlMachine

  /** A program that begins with a channel number and has all the bytes of its header; a music program,
      on channel 9, needs two only. */
  predicate Begins(data: seq<byte>, sfx: Option<Sfx>, ptr: nat) {
    || (ptr + 4 <= |data| && data[ptr] <= 9)
    || (ptr + 2 <= |data| && data[ptr] == 9 && sfx == None)
  }

  /** A program that cannot be started. */
  predicate Broken(data: seq<byte>, ptr: nat) {
    ptr + 2 > |data| || data[ptr] > 9 || (data[ptr] < 9 && ptr + 4 > |data|)
  }

  /** No channel loses priority. */
  predicate NoneLower(before: seq<Channel>, after: seq<Channel>) {
    |before| == |after| == 10 && forall c :: 0 <= c < 10 ==> after[c].priority >= before[c].priority
  }

  /** The program plays on its channel, at its priority and from its third byte on; no other channel is
      touched, and two callbacks will pass. */
  predicate PlaysNow(before: Situation, after: Situation, ptr: nat)
    requires InForm(before) && InForm(after) && ptr + 2 <= |before.data| == |after.data| && before.data[ptr] <= 9
  {
    var chan := before.data[ptr];
    && after.channels[chan].priority == after.data[ptr + 1] && after.channels[chan].dataptr == Some(ptr + 2)
    && after.channels[chan].duration == 1 && after.channels[chan].timer == 0xFF
    && (forall c :: 0 <= c < 10 && c != chan ==> after.channels[c] == before.channels[c])
    && after.timeout == 2 && before.writes <= after.writes
  }

  predicate NothingPlays(before: Situation, after: Situation) {
    after.channels == before.channels && after.writes == before.writes && after.timeout == before.timeout
  }

  /** A callback that takes a program off the queue: it starts if and only if its priority, as it then stands in
      the data, is at least that of what its channel plays. */
  predicate TickLaw(before: Situation, after: Situation)
    requires InForm(before) && InForm(after) && |before.data| == |after.data|
  {
    var head := before.ring.slots[before.ring.start];
    && NoneLower(before.channels, after.channels)
    && (before.timeout > 0 ==> after == before.(timeout := before.timeout - 1))
    && (before.timeout == 0 && head.data == None ==> NothingPlays(before, after) && after.data == before.data)
    && (before.timeout == 0 && head.data.Some? ==>
          var ptr := head.data.value;
          && (Broken(before.data, ptr) ==> NothingPlays(before, after) && after.data == before.data)
          && (Begins(before.data, before.sfx, ptr) ==>
                && (after.data[ptr + 1] >= before.channels[before.data[ptr]].priority ==> PlaysNow(before, after, ptr))
                && (after.data[ptr + 1] < before.channels[before.data[ptr]].priority ==> NothingPlays(before, after))
                && (before.sfx == None && (head.volume == 0xFF || before.data[ptr] == 9) ==> after.data == before.data)))
  }

  lemma TickIsLawful(cfg: Settings, s: Situation)
    requires InForm(s)
    ensures InForm(After(cfg, s, Tick)) && |After(cfg, s, Tick).data| == |s.data|
    ensures TickLaw(s, After(cfg, s, Tick))
  {
    hide RingRun, StartWrites, ProgramAt, Scaled;
    var head := s.ring.slots[s.ring.start];
    if s.timeout == 0 && head.data.Some? {
      HeadIsLawful(cfg, s, head.data.value);
    }
  }

  lemma HeadIsLawful(cfg: Settings, s: Situation, ptr: nat)
    requires InForm(s) && s.timeout == 0 && HeadOf(s).data == Some(ptr)
    ensures |After(cfg, s, Tick).data| == |s.data| && TickLaw(s, After(cfg, s, Tick))
  {
    hide RingRun, StartWrites, ProgramAt, Adjusted, IsRing;
    var data := s.data;
    assert Takes(s);
    if Broken(data, ptr) {
      assert Fate(cfg, s) == Malformed;
    } else if Begins(data, s.sfx, ptr) {
      assert HasHeader(data, ptr) && CanAdjust(data, s.sfx, ptr);
      if s.sfx == None && (HeadOf(s).volume == 0xFF || data[ptr] == 9) {
        FullVolume(cfg.version, data, ptr, HeadOf(s).volume);
      }
    }
  }

  /** At full volume a program is not patched, nor is music. */
  lemma FullVolume(version: nat, data: seq<byte>, ptr: nat, volume: byte)
    requires CanAdjust(data, None, ptr) && (volume == 0xFF || data[ptr] == 9)
    ensures Adjusted(version, data, None, ptr, volume).0 == data
  {
  }

  /** Over whole runs in which no program ends and nothing is stopped, no channel ever loses priority. */
  lemma {:induction false} PrioritiesStay(cfg: Settings, s: Situation, calls: seq<Call>)
    requires InForm(s) && forall i :: 0 <= i < |calls| ==> Allowed(calls[i]) && !calls[i].Finish? && !calls[i].StopAll?
    ensures NoneLower(s.channels, AfterAll(cfg, s, calls).channels)
  {
    hide After;
    if calls != [] {
      var n := |calls| - 1;
      PrioritiesStay(cfg, s, calls[..n]);
      OneStays(cfg, AfterAll(cfg, s, calls[..n]), calls[n]);
    }
  }

  lemma OneStays(cfg: Settings, s: Situation, call: Call)
    requires InForm(s) && Allowed(call) && !call.Finish? && !call.StopAll?
    ensures NoneLower(s.channels, After(cfg, s, call).channels)
  {
    hide RingRun, StartWrites, ProgramAt, Adjusted, IsRing;
    if call == Tick {
      TickIsLawful(cfg, s);
    }
  }

  /** The table at the start of the data holds the places of the programs, low byte first. */
  lemma ProgramFound(before: seq<byte>, p: nat, rest: seq<byte>)
    requires |before| % 2 == 0 && p < 0x1_0000
    ensures var data := before + [p % 256, p / 256] + rest;
            ProgramAt(data, |before| / 2) == if 0 < p < |data| then Some(p) else None
  {
    var data := before + [p % 256, p / 256] + rest;
    assert data[|before|] == p % 256 && data[|before| + 1] == p / 256;
  }

  /** A channel of the chip that the driver may use: the rhythm section has the last three. */
  predicate OwnVoice(rhythmSection: byte, c: nat) {
    c <= 5 || (c <= 8 && rhythmSection == 0)
  }

  /** A start makes both operators of the channel as short as they can be, releases the key and presses it. */
  lemma StartWritesAre(rhythmSection: byte, c: nat)
    ensures StartWrites(rhythmSection, c) ==
              if !OwnVoice(rhythmSection, c) then []
              else
                var o := c / 3 * 8 + c % 3;
                [(0x60 + o, 0xFF), (0x60 + o + 3, 0xFF), (0x80 + o, 0xFF), (0x80 + o + 3, 0xFF), (0xB0 + c, 0x00), (0xB0 + c, 0x20)]
  {
    if c < 3 { } else if c < 6 { } else if c < 9 { }
  }

  /** A stop frees every channel, and releases the key of every one that the driver may use, and does nothing
      else to the chip. */
  lemma StopReleases(cfg: Settings, s: Situation)
    requires InForm(s)
    ensures var t := After(cfg, s, StopAll);
            && |t.channels| == 10 && (forall c :: 0 <= c < 10 ==> t.channels[c].priority == 0 && t.channels[c].dataptr == None)
            && s.writes <= t.writes
            && (forall w :: w in t.writes[|s.writes|..] ==> 0xB0 <= w.0 <= 0xB8 && w.1 / 0x20 % 2 == 0)
            && (forall c :: 0 <= c < 10 && OwnVoice(cfg.rhythmSection, c) ==>
                  exists w :: w in t.writes[|s.writes|..] && w.0 == 0xB0 + c && w.1 == t.channels[c].regBx)
  {
    hide IsRing, SfxInside, Unpatched;
    var t := After(cfg, s, StopAll);
    StopWritesAre(s.channels, cfg.rhythmSection, 10);
    assert t.writes[|s.writes|..] == StopWrites(s.channels, cfg.rhythmSection, 10);
    forall c | 0 <= c < 10 && OwnVoice(cfg.rhythmSection, c)
      ensures (0xB0 + c, t.channels[c].regBx) in t.writes[|s.writes|..]
    {
      assert t.channels[c].regBx == ClearKey(s.channels[c].regBx);
    }
  }

  lemma {:induction false} StopWritesAre(channels: seq<Channel>, rhythmSection: byte, n: nat)
    requires n <= |channels|
    ensures forall w :: w in StopWrites(channels, rhythmSection, n) ==> 0xB0 <= w.0 <= 0xB8 && w.1 / 0x20 % 2 == 0
    ensures forall c :: 0 <= c < n && OwnVoice(rhythmSection, c) ==>
              (0xB0 + c, ClearKey(channels[c].regBx)) in StopWrites(channels, rhythmSection, n)
  {
    if n > 0 {
      StopWritesAre(channels, rhythmSection, n - 1);
      KeyCleared(channels[n - 1].regBx);
    }
  }

  lemma KeyCleared(b: byte)
    ensures ClearKey(b) / 0x20 % 2 == 0 && ClearKey(b) % 0x20 == b % 0x20 && ClearKey(b) / 0x40 == b / 0x40
  {
  }
}
