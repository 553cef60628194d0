/** The Westwood ADL driver (src/adl.cpp) on values: programs, the patches of sound effects, channels,
    and a machine that says what every call does. */
module AdlMachine {
  import opened Wrappers
  import opened Bits
  import opened AdlSpec

  // Sound effects are patched in the loaded data while they are current

  datatype Sfx = Sfx(ptr: nat, priority: byte, velocity: byte)

  function Patched(data: seq<byte>, at: nat, priority: byte, velocity: byte): (r: seq<byte>)
    requires at + 4 <= |data|
    ensures |r| == |data|
  {
    data[at + 1 := priority][at + 3 := velocity]
  }

  predicate SfxInside(data: seq<byte>, sfx: Option<Sfx>) {
    sfx.Some? ==> sfx.value.ptr + 4 <= |data|
  }

  /** The data without the patch of the current sound effect. */
  function Unpatched(data: seq<byte>, sfx: Option<Sfx>): (r: seq<byte>)
    requires SfxInside(data, sfx)
    ensures |r| == |data|
  {
    match sfx
    case None => data
    case Some(x) => Patched(data, x.ptr, x.priority, x.velocity)
  }

  lemma PatchAndBack(data: seq<byte>, at: nat, priority: byte, velocity: byte)
    requires at + 4 <= |data|
    ensures Patched(Patched(data, at, priority, velocity), at, data[at + 1], data[at + 3]) == data
  {
  }

  function XorLow(x: nat, low: nat): (r: nat)
    requires low > 0
  {
    x / low * low + (low - 1 - x % low)
  }

  /** Priority and velocity of a sound effect at a volume, by driver version. */
  function Scaled(version: nat, volume: byte, priority: byte, velocity: byte): (r: (byte, byte)) {
    if volume == 0xFF then (priority, velocity)
    else if version >= 3 then
      var newVal := (velocity + 63) * volume / 0x100 % 0x100;
      (priority * volume / 0x100 % 0x100, (63 - newVal) % 0x100)
    else
      var newVal := XorLow(velocity * 4, 0x100) * volume;
      (newVal / 2048 % 0x100, XorLow(newVal / 1024, 0x40) % 0x100)
  }

  /** A channel: the priority of what it plays, where it reads on, its timing and volume, and its
      key-on register. */
  datatype Channel = Channel(priority: byte, dataptr: Option<nat>, tempo: byte, timer: byte, duration: byte, volumeModifier: byte, regBx: byte)

  const IDLE: Channel := Channel(0, None, 0xFF, 0, 0, 0, 0)

  /** A channel on which a program starts. */
  function Playing(priority: byte, ptr: nat, volumeModifier: byte): Channel {
    Channel(priority, Some(ptr), 0xFF, 0xFF, 1, volumeModifier, 0)
  }

  const REG_OFFSET: seq<nat> := [0x00, 0x01, 0x02, 0x08, 0x09, 0x0A, 0x10, 0x11, 0x12]

  /** Whether the driver writes to a channel of the chip: there are nine, and the rhythm section takes
      the last three. */
  predicate HasVoice(rhythmSection: byte, chan: nat) {
    chan < 9 && (rhythmSection == 0 || chan < 6)
  }

  /** What starting a program writes to the chip, and what stopping a channel does. */
  function StartWrites(rhythmSection: byte, chan: nat): seq<(nat, byte)> {
    if !HasVoice(rhythmSection, chan) then []
    else
      var offset := REG_OFFSET[chan];
      [(0x60 + offset, 0xFF), (0x63 + offset, 0xFF), (0x80 + offset, 0xFF), (0x83 + offset, 0xFF), (0xB0 + chan, 0), (0xB0 + chan, 0x20)]
  }

  function Silenced(c: Channel, rhythmSection: byte, chan: nat): Channel {
    if HasVoice(rhythmSection, chan) then c.(regBx := ClearKey(c.regBx)) else c
  }

  function NoteOffWrites(c: Channel, rhythmSection: byte, chan: nat): seq<(nat, byte)> {
    if HasVoice(rhythmSection, chan) then [(0xB0 + chan, ClearKey(c.regBx))] else []
  }

  /** Stopping the channels below `n`, one after the other. */
  function StopWrites(channels: seq<Channel>, rhythmSection: byte, n: nat): seq<(nat, byte)>
    requires n <= |channels|
  {
    if n == 0 then [] else StopWrites(channels, rhythmSection, n - 1) + NoteOffWrites(channels[n - 1], rhythmSection, n - 1)
  }

  /** The program with a number, from the offset table at the start of the data. */
  function ProgramAt(data: seq<byte>, track: int): (p: Option<nat>)
    ensures p.Some? ==> 0 < p.value < |data|
  {
    if track < 0 || track >= |data| / 2 then None
    else
      var offset := data[2 * track] as int + data[2 * track + 1] as int * 0x100;
      if offset == 0 || offset >= |data| then None else Some(offset)
  }

  /** Whether a program can be started at all: its header lies inside the data and names a channel. */
  predicate HasHeader(data: seq<byte>, ptr: nat) {
    ptr + 2 <= |data| && data[ptr] <= 9 && (data[ptr] < 9 ==> ptr + 4 <= |data|)
  }

  /** That the effect of a program can be patched in once the last one is taken back. */
  predicate CanAdjust(data: seq<byte>, sfx: Option<Sfx>, ptr: nat)
    requires SfxInside(data, sfx)
  {
    ptr < |data| && (Unpatched(data, sfx)[ptr] == 9 || ptr + 4 <= |data|)
  }

  /** It always can if the current effect's patch does not lie on the program's channel number. */
  lemma CanAdjustUnlessPatched(data: seq<byte>, sfx: Option<Sfx>, ptr: nat)
    requires SfxInside(data, sfx) && HasHeader(data, ptr)
    requires sfx.Some? ==> ptr != sfx.value.ptr + 1 && ptr != sfx.value.ptr + 3
    ensures CanAdjust(data, sfx, ptr)
  {
  }

  /** The data after a program's effect is patched in; the music channel has none. */
  function Adjusted(version: nat, data: seq<byte>, sfx: Option<Sfx>, ptr: nat, volume: byte): (r: (seq<byte>, Option<Sfx>))
    requires SfxInside(data, sfx) && CanAdjust(data, sfx, ptr)
    ensures |r.0| == |data| && SfxInside(r.0, r.1) && Unpatched(r.0, r.1) == Unpatched(data, sfx)
  {
    var d := Unpatched(data, sfx);
    if d[ptr] == 9 then (d, None)
    else
      var (p, v) := Scaled(version, volume, d[ptr + 1], d[ptr + 3]);
      PatchAndBack(d, ptr, p, v);
      (Patched(d, ptr, p, v), Some(Sfx(ptr, d[ptr + 1], d[ptr + 3])))
  }

  /** What becomes of the program at the head of the queue; OutsideData where the original reads and
      writes past the end of its data. */
  datatype Outcome = Malformed | Started(chan: nat, priority: byte) | Outranked | OutsideData

  function OutcomeOf(version: nat, data: seq<byte>, sfx: Option<Sfx>, channels: seq<Channel>, ptr: nat, volume: byte): (o: Outcome)
    requires SfxInside(data, sfx) && |channels| == 10
    ensures o.Started? ==> o.chan < 10
    ensures o.Started? || o.Outranked? ==> CanAdjust(data, sfx, ptr)
  {
    if !HasHeader(data, ptr) then Malformed
    else if !CanAdjust(data, sfx, ptr) then OutsideData
    else
      var chan, priority := data[ptr], Adjusted(version, data, sfx, ptr, volume).0[ptr + 1];
      if priority >= channels[chan].priority then Started(chan, priority) else Outranked
  }

  /** What the driver was set up with. */
  datatype Settings = Settings(version: nat, musicVolume: byte, sfxVolume: byte, rhythmSection: byte)

  /** All that the calls change. */
  datatype Situation = Situation(ring: Ring, data: seq<byte>, sfx: Option<Sfx>, channels: seq<Channel>,
                                 timeout: nat, retry: bool, writes: seq<(nat, byte)>)

  predicate InForm(s: Situation) {
    IsRing(s.ring) && SfxInside(s.data, s.sfx) && |s.channels| == 10
  }

  /** Finish stands for a program that comes to its end. */
  datatype Call = Start(track: int, volume: int) | Tick | Finish(chan: nat) | StopAll | NewData(data: seq<byte>)

  predicate Allowed(call: Call) {
    call.Finish? ==> call.chan < 10
  }

  /** Whether a timer callback takes an entry off the queue. */
  predicate Takes(s: Situation)
    requires InForm(s)
  {
    s.timeout == 0 && !LooksEmpty(s.ring)
  }

  function HeadOf(s: Situation): Entry
    requires InForm(s)
  {
    s.ring.slots[s.ring.start]
  }

  /** What becomes of that entry. */
  function Fate(cfg: Settings, s: Situation): (o: Outcome)
    requires InForm(s)
    ensures o.Started? ==> o.chan < 10 && HeadOf(s).data.Some?
    ensures o.Started? || o.Outranked? ==> HeadOf(s).data.Some? && CanAdjust(s.data, s.sfx, HeadOf(s).data.value)
  {
    var e := HeadOf(s);
    if e.data == None then Malformed else OutcomeOf(cfg.version, s.data, s.sfx, s.channels, e.data.value, e.volume)
  }

  /** The sound data after it, with the effect of the entry if that was looked at. */
  function DataAfter(cfg: Settings, s: Situation): (r: (seq<byte>, Option<Sfx>))
    requires InForm(s)
    ensures SfxInside(r.0, r.1) && |r.0| == |s.data| && Unpatched(r.0, r.1) == Unpatched(s.data, s.sfx)
  {
    var out, e := Fate(cfg, s), HeadOf(s);
    if out.Started? || out.Outranked? then Adjusted(cfg.version, s.data, s.sfx, e.data.value, e.volume) else (s.data, s.sfx)
  }

  /** What a call does to the queue. */
  function OpsOf(cfg: Settings, s: Situation, call: Call): seq<Op>
    requires InForm(s)
  {
    match call
    case Start(track, volume) => [Enqueue(Entry(ProgramAt(s.data, track), track % 0x100, volume % 0x100))]
    case Tick =>
      if !Takes(s) then []
      else
        var e := HeadOf(s);
        [Dequeue] +
        if Fate(cfg, s).Outranked? && s.retry && e.id != 0
        then [Enqueue(Entry(ProgramAt(DataAfter(cfg, s).0, e.id), e.id, e.volume))] else []
    case _ => []
  }

  /** What a call does. */
  function After(cfg: Settings, s: Situation, call: Call): (s': Situation)
    requires InForm(s) && Allowed(call)
    ensures InForm(s')
    ensures !call.NewData? ==> Unpatched(s'.data, s'.sfx) == Unpatched(s.data, s.sfx)
  {
    var s1 := s.(ring := RingRun(s.ring, OpsOf(cfg, s, call)));
    match call
    case Start(_, _) => s1
    case Tick =>
      if s.timeout > 0 then s.(timeout := s.timeout - 1)
      else if !Takes(s) then s
      else
        var out, e := Fate(cfg, s), HeadOf(s);
        var s2 := s1.(data := DataAfter(cfg, s).0, sfx := DataAfter(cfg, s).1, retry := s.retry || e.id == 0);
        if !out.Started? then s2
        else
          s2.(timeout := 2, writes := s.writes + StartWrites(cfg.rhythmSection, out.chan),
              channels := s.channels[out.chan := Playing(out.priority, e.data.value + 2, if out.chan <= 5 then cfg.musicVolume else cfg.sfxVolume)])
    case Finish(chan) => s.(channels := s.channels[chan := s.channels[chan].(priority := 0, dataptr := None)])
    case StopAll =>
      s.(ring := Reset(s.ring), timeout := 0, retry := false, writes := s.writes + StopWrites(s.channels, cfg.rhythmSection, 10),
         channels := seq(10, c requires 0 <= c < 10 => Silenced(s.channels[c], cfg.rhythmSection, c).(priority := 0, dataptr := None)))
    case NewData(data) => s.(ring := Reset(s.ring), data := data, sfx := None)
  }

  function AfterAll(cfg: Settings, s: Situation, calls: seq<Call>): (s': Situation)
    requires InForm(s) && forall i :: 0 <= i < |calls| ==> Allowed(calls[i])
    ensures InForm(s')
  {
    if calls == [] then s else After(cfg, AfterAll(cfg, s, calls[..|calls| - 1]), calls[|calls| - 1])
  }
}
