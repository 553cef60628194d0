/** What is heard of a CMF song: which notes sound, from which event to which (src/cmf.cpp). */
module CmfLaws {
  import opened Bits
  import opened Machine
  import opened CmfSpec
  import opened CmfMachine

  /** A voice sounds a note of a channel. */
  ghost predicate Sounding(s: Situation, c: int, note: int) {
    exists i :: 0 <= i < |s.voices| && Matches(s.voices[i], c, note)
  }

  ghost predicate VoiceSane(v: Voice, i: nat, percussive: bool, count: nat) {
    && -1 <= v.channel < 16 && v.start <= count && (v.start > 0 ==> v.channel >= 0)
    && (percussive && i < 6 ==> v.channel < 11)
    && (percussive && i >= 6 ==> v.channel == -1 || (v.channel >= 11 && PercVoice(v.channel) == i))
  }

  /** Voices are where their channels may have them, and stamps tell sounding voices apart. */
  ghost predicate Sane(s: Situation) {
    && |s.voices| == 9
    && (forall i :: 0 <= i < 9 ==> VoiceSane(s.voices[i], i, s.percussive, s.count))
    && (forall i, j :: 0 <= i < j < 9 && s.voices[i].start > 0 ==> s.voices[i].start != s.voices[j].start)
  }

  lemma BeginningSane(cfg: Setup, percussive: bool)
    requires IsSetup(cfg)
    ensures Sane(Beginning(cfg, percussive)) && forall c, note :: !Sounding(Beginning(cfg, percussive), c, note)
  {
  }

  // Single events

  /** The voice that a note of a channel gets. */
  function Chosen(s: Situation, c: nat): (v: nat)
    requires |s.voices| == 9 && c < 16
    ensures v < 9
    ensures if Drums(s.percussive, c) then v >= 6 else v < VoicesOf(s.percussive)
  {
    if Drums(s.percussive, c) then PercVoice(c) else BestVoice(s.voices[..VoicesOf(s.percussive)], c)
  }

  /** A note that starts takes one voice, with the next stamp. */
  lemma StartVoices(cfg: Setup, s: Situation, c: nat, note: byte, velocity: byte)
    requires InForm(cfg, s) && c < 16
    ensures var t, v := Start(cfg, s, c, note, velocity), Chosen(s, c);
            && t.count == s.count + 1 && t.percussive == s.percussive && t.channels == s.channels
            && t.voices == s.voices[v := t.voices[v]]
            && t.voices[v].start == t.count && t.voices[v].channel == c && t.voices[v].note == note
            && t.views == s.views[v := t.views[v]]
            && (!Drums(s.percussive, c) ==>
                  && t.rhythm == s.rhythm && cfg.instruments[s.channels[c].patch] in cfg.instruments
                  && t.views[v] == Struck(cfg.instruments[s.channels[c].patch], cfg.fnums, s.channels[c], note, velocity))
  {
    hide BestVoice, Struck, DrumStruck;
  }

  lemma StartSane(cfg: Setup, s: Situation, c: nat, note: byte, velocity: byte)
    requires InForm(cfg, s) && c < 16 && Sane(s)
    ensures Sane(Start(cfg, s, c, note, velocity))
  {
    hide Start, BestVoice;
    StartVoices(cfg, s, c, note, velocity);
  }

  lemma StartSounds(cfg: Setup, s: Situation, c: nat, note: byte, velocity: byte)
    requires InForm(cfg, s) && c < 16
    ensures var t := Start(cfg, s, c, note, velocity);
            Sounding(t, c, note) && forall x, n :: Sounding(t, x, n) && (x, n) != (c as int, note as int) ==> Sounding(s, x, n)
  {
    hide Start, Chosen;
    StartVoices(cfg, s, c, note, velocity);
    var t, v := Start(cfg, s, c, note, velocity), Chosen(s, c);
    assert Matches(t.voices[v], c, note);
    forall x, n | Sounding(t, x, n) && (x, n) != (c as int, note as int)
      ensures Sounding(s, x, n)
    {
      var i :| 0 <= i < 9 && Matches(t.voices[i], x, n);
      assert Matches(s.voices[i], x, n);
    }
  }

  /** The notes that a note-off ends: the note itself; in rhythm mode also the same key on the drum that
      shares its voice. */
  predicate Hit(percussive: bool, c: nat, note: int, x: int, n: int) {
    n == note && if Drums(percussive, c) && c < 16 then 11 <= x < 16 && PercVoice(x) == PercVoice(c) else x == c
  }

  /** A note-off keeps all stamps but those it ends. */
  lemma StopVoice(cfg: Setup, s: Situation, c: nat, note: byte, i: nat)
    requires InForm(cfg, s) && c < 16 && Sane(s) && i < 9
    ensures var t := Stop(cfg, s, c, note);
            && t.count == s.count && t.percussive == s.percussive && t.channels == s.channels && |t.voices| == 9
            && (t.voices[i] == s.voices[i] || t.voices[i] == s.voices[i].(start := 0))
            && (s.voices[i].start > 0 ==>
                  (t.voices[i].start == 0 <==> Hit(s.percussive, c, note, s.voices[i].channel, s.voices[i].note)))
  {
    assert VoiceSane(s.voices[i], i, s.percussive, s.count);
  }

  lemma StopSane(cfg: Setup, s: Situation, c: nat, note: byte)
    requires InForm(cfg, s) && c < 16 && Sane(s)
    ensures Sane(Stop(cfg, s, c, note))
  {
    hide Stop;
    forall i | 0 <= i < 9
      ensures var t := Stop(cfg, s, c, note);
              t.count == s.count && t.percussive == s.percussive && |t.voices| == 9
              && (t.voices[i] == s.voices[i] || t.voices[i] == s.voices[i].(start := 0))
    {
      StopVoice(cfg, s, c, note, i);
    }
  }

  /** After a note-off its note does not sound; all others do as before. */
  lemma StopSilences(cfg: Setup, s: Situation, c: nat, note: byte)
    requires InForm(cfg, s) && c < 16 && Sane(s)
    ensures var t := Stop(cfg, s, c, note);
            forall x, n :: Sounding(t, x, n) <==> Sounding(s, x, n) && !Hit(s.percussive, c, note, x, n)
  {
    hide Stop, Hit;
    var t := Stop(cfg, s, c, note);
    StopVoice(cfg, s, c, note, 0);
    forall x, n
      ensures Sounding(t, x, n) <==> Sounding(s, x, n) && !Hit(s.percussive, c, note, x, n)
    {
      if i :| 0 <= i < 9 && Matches(t.voices[i], x, n) {
        StopVoice(cfg, s, c, note, i);
        assert Matches(s.voices[i], x, n);
      }
      if i :| 0 <= i < 9 && Matches(s.voices[i], x, n) {
        StopVoice(cfg, s, c, note, i);
        assert !Hit(s.percussive, c, note, x, n) ==> Matches(t.voices[i], x, n);
      }
    }
  }

  /** Events that concern no notes leave channel, note and stamp of every sounding voice. */
  lemma OthersKeep(cfg: Setup, s: Situation, ev: Event)
    requires InForm(cfg, s) && ev.channel < 16 && !ev.NoteOn? && !ev.NoteOff? && !Switches(ev)
    ensures var t := After(cfg, s, ev);
            && t.count == s.count && t.percussive == s.percussive && |t.voices| == 9
            && forall i :: 0 <= i < 9 ==>
                 && t.voices[i].start == s.voices[i].start && t.voices[i].note == s.voices[i].note
                 && (t.voices[i].channel == s.voices[i].channel || (t.voices[i].channel == -1 && t.voices[i].start == 0))
  {
  }

  predicate Switches(ev: Event) {
    ev.Controller? && ev.number == 0x67
  }

  /** The mode switch frees every voice. */
  lemma SwitchFrees(cfg: Setup, s: Situation, ev: Event)
    requires InForm(cfg, s) && ev.channel < 16 && Switches(ev)
    ensures Sane(After(cfg, s, ev)) && After(cfg, s, ev).count == s.count && forall c, n :: !Sounding(After(cfg, s, ev), c, n)
  {
  }

  // Notes, after the repair of doubled ones

  /** The situation in which a note-on event is heard. */
  function Heard(s: Situation, ev: Event): (v: byte)
    requires ev.NoteOn? && ev.channel < |s.playing| == |s.fix|
  {
    Effective(ev.velocity, s.playing[ev.channel] == ev.note, s.fix[ev.channel])
  }

  predicate Starts(cfg: Setup, s: Situation, ev: Event, c: nat, n: byte)
    requires ev.channel < |s.playing| == |s.fix| == 16
  {
    ev.NoteOn? && ev.note == n && Resolved(cfg, ev.channel, n) == c && Heard(s, ev) != 0
  }

  predicate Stops(cfg: Setup, s: Situation, ev: Event, c: nat, n: byte)
    requires ev.channel < |s.playing| == |s.fix| == 16
  {
    (ev.NoteOff? || (ev.NoteOn? && Heard(s, ev) == 0)) && ev.note == n && Resolved(cfg, ev.channel, n) == c
  }

  /** What a note event comes to. */
  lemma NoteEvent(cfg: Setup, s: Situation, ev: Event) returns (s1: Situation, c: nat)
    requires InForm(cfg, s) && ev.channel < 16 && (ev.NoteOn? || ev.NoteOff?)
    ensures InForm(cfg, s1) && s1 == s.(playing := s1.playing, fix := s1.fix) && c < 16 && c == Resolved(cfg, ev.channel, ev.note)
    ensures ev.NoteOn? ==>
              && s1.playing == s.playing[ev.channel := if Heard(s, ev) != 0 then ev.note else 255]
              && s1.fix == s.fix[ev.channel := ev.velocity != 0 && (s.playing[ev.channel] == ev.note || s.fix[ev.channel])]
    ensures ev.NoteOn? && Heard(s, ev) != 0 ==> Starts(cfg, s, ev, c, ev.note) && After(cfg, s, ev) == Start(cfg, s1, c, ev.note, Heard(s, ev))
    ensures ev.NoteOff? || Heard(s, ev) == 0 ==> Stops(cfg, s, ev, c, ev.note) && After(cfg, s, ev) == Stop(cfg, s1, c, ev.note)
  {
    hide Start, Stop;
    c := Resolved(cfg, ev.channel, ev.note);
    s1 := s;
    if ev.NoteOn? {
      var v := Heard(s, ev);
      s1 := s.(playing := s.playing[ev.channel := if v != 0 then ev.note else 255],
               fix := s.fix[ev.channel := ev.velocity != 0 && (s.playing[ev.channel] == ev.note || s.fix[ev.channel])]);
    }
  }

  /** Whether a voice sounds does not depend on what the repair remembers. */
  lemma SameVoices(s: Situation, s1: Situation)
    requires s1 == s.(playing := s1.playing, fix := s1.fix)
    ensures Sane(s) <==> Sane(s1)
    ensures forall c, n :: Sounding(s1, c, n) <==> Sounding(s, c, n)
  {
  }

  lemma StepSane(cfg: Setup, s: Situation, ev: Event)
    requires InForm(cfg, s) && ev.channel < 16 && Sane(s)
    ensures Sane(After(cfg, s, ev)) && s.count <= After(cfg, s, ev).count <= s.count + 1
  {
    hide Start, Stop, After;
    if ev.NoteOn? || ev.NoteOff? {
      var s1, c := NoteEvent(cfg, s, ev);
      SameVoices(s, s1);
      if ev.NoteOn? && Heard(s, ev) != 0 {
        StartSane(cfg, s1, c, ev.note, Heard(s, ev));
        StartVoices(cfg, s1, c, ev.note, Heard(s, ev));
      } else {
        StopSane(cfg, s1, c, ev.note);
        StopVoice(cfg, s1, c, ev.note, 0);
      }
    } else if Switches(ev) {
      SwitchFrees(cfg, s, ev);
    } else {
      OthersKeep(cfg, s, ev);
    }
  }

  /** An event that does not start a silent note leaves it silent; one that stops it makes it so. */
  lemma StepSilent(cfg: Setup, s: Situation, ev: Event, c: nat, n: byte)
    requires InForm(cfg, s) && ev.channel < 16 && Sane(s)
    requires Stops(cfg, s, ev, c, n) || (!Sounding(s, c, n) && !Starts(cfg, s, ev, c, n))
    ensures !Sounding(After(cfg, s, ev), c, n)
  {
    hide Start, Stop, After, Chosen;
    var t := After(cfg, s, ev);
    if ev.NoteOn? || ev.NoteOff? {
      var s1, x := NoteEvent(cfg, s, ev);
      SameVoices(s, s1);
      if ev.NoteOn? && Heard(s, ev) != 0 {
        StartSounds(cfg, s1, x, ev.note, Heard(s, ev));
      } else {
        StopSilences(cfg, s1, x, ev.note);
      }
    } else if Switches(ev) {
      SwitchFrees(cfg, s, ev);
    } else {
      OthersKeep(cfg, s, ev);
      forall i | 0 <= i < 9
        ensures !Matches(t.voices[i], c, n)
      {
        assert !Matches(s.voices[i], c, n);
      }
    }
  }

  /** What a note-on event comes to, told without the machine: it is heard unless it is doubled, or, with
      velocity zero, if a doubled one is to be repaired (then at velocity 127). */
  ghost predicate NoteLaw(cfg: Setup, s: Situation, t: Situation, channel: nat, note: byte, velocity: byte)
    requires InForm(cfg, s) && InForm(cfg, t) && channel < 16
  {
    var c, doubled := Resolved(cfg, channel, note), s.playing[channel] == note;
    var heard := if velocity != 0 then !doubled else s.fix[channel];
    var loud: byte := if velocity != 0 then velocity else 127;
    && t.fix == s.fix[channel := velocity != 0 && (doubled || s.fix[channel])]
    && t.playing == s.playing[channel := if heard then note else 255]
    && t.channels == s.channels && t.percussive == s.percussive
    && (heard ==>
          && t.count == s.count + 1
          && exists v :: 0 <= v < 9 && t.voices == s.voices[v := t.voices[v]] && t.views == s.views[v := t.views[v]]
               && t.voices[v].start == t.count && t.voices[v].channel == c && t.voices[v].note == note
               && (!Drums(s.percussive, c) ==>
                     && cfg.instruments[s.channels[c].patch] in cfg.instruments && v < VoicesOf(s.percussive)
                     && t.views[v] == Struck(cfg.instruments[s.channels[c].patch], cfg.fnums, s.channels[c], note, loud)))
    && (!heard ==>
          && t.count == s.count && !Sounding(t, c, note)
          && forall x, n :: Sounding(t, x, n) <==> Sounding(s, x, n) && !Hit(s.percussive, c, note, x, n))
  }

  lemma NotedIsLawful(cfg: Setup, s: Situation, channel: nat, note: byte, velocity: byte)
    requires InForm(cfg, s) && channel < 16 && Sane(s)
    ensures NoteLaw(cfg, s, Noted(cfg, s, channel, note, velocity), channel, note, velocity)
  {
    hide Start, Stop, Chosen, Struck, Sounding, Sane, Hit;
    var ev := NoteOn(channel, note, velocity);
    var s1, c := NoteEvent(cfg, s, ev);
    SameVoices(s, s1);
    var t := Noted(cfg, s, channel, note, velocity);
    assert t == After(cfg, s, ev);
    if Heard(s, ev) != 0 {
      StartVoices(cfg, s1, c, note, Heard(s, ev));
      StartKeepsRest(cfg, s1, c, note, Heard(s, ev));
      var v := Chosen(s1, c);
      assert v < 9 && t.voices == s.voices[v := t.voices[v]] && t.views == s.views[v := t.views[v]];
      assert !Drums(s.percussive, c) ==> v < VoicesOf(s.percussive);
    } else {
      StopSilences(cfg, s1, c, note);
      StopVoice(cfg, s1, c, note, 0);
      StopKeepsRest(cfg, s1, c, note);
      StepSilent(cfg, s, ev, c, note);
    }
  }

  lemma StartKeepsRest(cfg: Setup, s: Situation, c: nat, note: byte, velocity: byte)
    requires InForm(cfg, s) && c < 16
    ensures var t := Start(cfg, s, c, note, velocity); t.playing == s.playing && t.fix == s.fix
  {
    hide BestVoice, Struck, DrumStruck;
  }

  lemma StopKeepsRest(cfg: Setup, s: Situation, c: nat, note: byte)
    requires InForm(cfg, s) && c < 16
    ensures var t := Stop(cfg, s, c, note); t.playing == s.playing && t.fix == s.fix
  {
  }

  // Voices that keep their note

  predicate Keeps(s: Situation, v: nat, stamp: nat, c: nat, n: byte) {
    v < |s.voices| == 9 && stamp > 0 && s.voices[v].start == stamp && s.voices[v].channel == c && s.voices[v].note == n
  }

  /** An event that ends the note: its own note-off, or that of the same key on the drum that shares its voice. */
  predicate Ends(cfg: Setup, s: Situation, ev: Event, c: nat, n: byte)
    requires ev.channel < |s.playing| == |s.fix| == 16
  {
    (ev.NoteOff? || (ev.NoteOn? && Heard(s, ev) == 0)) && Hit(s.percussive, Resolved(cfg, ev.channel, ev.note), ev.note, c, n)
  }

  /** An event that starts a note on the voice. */
  predicate Takes(cfg: Setup, s: Situation, ev: Event, v: nat)
    requires ev.channel < |s.playing| == |s.fix| == 16 && |s.voices| == 9
  {
    ev.NoteOn? && Heard(s, ev) != 0 && Chosen(s, Resolved(cfg, ev.channel, ev.note)) == v
  }

  lemma StepKeeps(cfg: Setup, s: Situation, ev: Event, v: nat, stamp: nat, c: nat, n: byte)
    requires InForm(cfg, s) && ev.channel < 16 && Sane(s) && Keeps(s, v, stamp, c, n)
    requires !Switches(ev) && !Ends(cfg, s, ev, c, n) && !Takes(cfg, s, ev, v)
    ensures Keeps(After(cfg, s, ev), v, stamp, c, n) && After(cfg, s, ev).percussive == s.percussive
  {
    hide Start, Stop, After, BestVoice, Hit, Sane;
    if ev.NoteOn? || ev.NoteOff? {
      var s1, x := NoteEvent(cfg, s, ev);
      SameVoices(s, s1);
      if ev.NoteOn? && Heard(s, ev) != 0 {
        StartVoices(cfg, s1, x, ev.note, Heard(s, ev));
      } else {
        StopVoice(cfg, s1, x, ev.note, v);
      }
    } else {
      OthersKeep(cfg, s, ev);
    }
  }

  /** Numbers that differ, all between two limits, are not many. */
  lemma {:induction false} DistinctFew(xs: seq<nat>, lo: nat, hi: int)
    requires lo <= hi + 1 && forall i :: 0 <= i < |xs| ==> lo <= xs[i] <= hi
    requires forall i, j :: 0 <= i < j < |xs| ==> xs[i] != xs[j]
    ensures |xs| <= hi - lo + 1
    decreases hi + 1 - lo
  {
    if xs != [] {
      assert lo <= xs[0] <= hi;
      if i :| 0 <= i < |xs| && xs[i] == hi {
        DistinctFew(xs[..i] + xs[i + 1..], lo, hi - 1);
      } else {
        DistinctFew(xs, lo, hi - 1);
      }
    }
  }

  /** A note on a melodic voice is cut only by the last of as many notes as there are voices. */
  lemma CutLate(s: Situation, x: nat, v: nat)
    requires Sane(s) && x < 16 && !Drums(s.percussive, x) && Chosen(s, x) == v && s.voices[v].start > 0
    ensures s.count + 1 >= s.voices[v].start + VoicesOf(s.percussive)
  {
    hide BestVoice;
    var n := VoicesOf(s.percussive);
    var voices := s.voices[..n];
    assert forall i :: 0 <= i < n ==> voices[i] == s.voices[i] && VoiceSane(s.voices[i], i, s.percussive, s.count);
    CutsOnlyTheLongest(voices, x);
    var starts := seq(n, i requires 0 <= i < n => voices[i].start);
    assert forall i, j :: 0 <= i < j < n ==> voices[i].start != voices[j].start;
    DistinctFew(starts, voices[v].start, s.count);
  }

  // Runs

  predicate OnChannels(song: seq<Event>) {
    forall e :: e in song ==> e.channel < 16
  }

  /** The situation in front of an event of a song. */
  function Before(cfg: Setup, s: Situation, song: seq<Event>, i: nat): (t: Situation)
    requires InForm(cfg, s) && OnChannels(song) && i <= |song|
    ensures InForm(cfg, t)
  {
    AfterAll(cfg, s, song[..i])
  }

  lemma OneMore(cfg: Setup, s: Situation, song: seq<Event>, i: nat)
    requires InForm(cfg, s) && OnChannels(song) && i < |song|
    ensures song[i].channel < 16 && Before(cfg, s, song, i + 1) == After(cfg, Before(cfg, s, song, i), song[i])
  {
    hide After, InForm;
    assert song[..i + 1][..i] == song[..i];
  }

  lemma {:induction false} RunSane(cfg: Setup, s: Situation, song: seq<Event>, i: nat, j: nat)
    requires InForm(cfg, s) && Sane(s) && OnChannels(song) && i <= j <= |song|
    ensures Sane(Before(cfg, s, song, j)) && Before(cfg, s, song, i).count <= Before(cfg, s, song, j).count
    decreases j
  {
    hide InForm, Sane, After, OnChannels;
    if j > 0 {
      OneMore(cfg, s, song, j - 1);
      RunSane(cfg, s, song, if i < j then i else j - 1, j - 1);
      StepSane(cfg, Before(cfg, s, song, j - 1), song[j - 1]);
    }
  }

  /** A note that was stopped, and not started since, does not sound. */
  lemma {:induction false} SilentSince(cfg: Setup, s: Situation, song: seq<Event>, k: nat, c: nat, n: byte, j: nat)
    requires InForm(cfg, s) && Sane(s) && OnChannels(song) && k < j <= |song|
    requires forall i :: 0 <= i < |song| ==> song[i].channel < 16
    requires Stops(cfg, Before(cfg, s, song, k), song[k], c, n)
    requires forall i :: k < i < j ==> !Starts(cfg, Before(cfg, s, song, i), song[i], c, n)
    ensures !Sounding(Before(cfg, s, song, j), c, n)
    decreases j
  {
    hide Sane, After, AfterAll, Sounding, OnChannels, Stops, Starts;
    OneMore(cfg, s, song, j - 1);
    RunSane(cfg, s, song, 0, j - 1);
    if j - 1 > k {
      SilentSince(cfg, s, song, k, c, n, j - 1);
    }
    StepSilent(cfg, Before(cfg, s, song, j - 1), song[j - 1], c, n);
  }

  /** A note that was started sounds as long as it is not ended, the mode is not switched, and its voice
      not taken by another note. */
  lemma {:induction false} SoundsSince(cfg: Setup, s: Situation, song: seq<Event>, k: nat, c: nat, n: byte, j: nat)
    requires InForm(cfg, s) && Sane(s) && OnChannels(song) && k < j <= |song|
    requires forall i :: 0 <= i < |song| ==> song[i].channel < 16
    requires Starts(cfg, Before(cfg, s, song, k), song[k], c, n)
    requires c < 16 && |Before(cfg, s, song, k).voices| == 9
    requires forall i :: k < i < j ==>
               var t := Before(cfg, s, song, i);
               !Switches(song[i]) && !Ends(cfg, t, song[i], c, n) && !Takes(cfg, t, song[i], Chosen(Before(cfg, s, song, k), c))
    ensures var b := Before(cfg, s, song, k);
            Keeps(Before(cfg, s, song, j), Chosen(b, c), b.count + 1, c, n) && Before(cfg, s, song, j).percussive == b.percussive
    decreases j
  {
    hide Sane, After, AfterAll, OnChannels, Starts, Ends, Takes, Chosen, Keeps;
    var b := Before(cfg, s, song, k);
    OneMore(cfg, s, song, j - 1);
    RunSane(cfg, s, song, 0, j - 1);
    if j - 1 > k {
      SoundsSince(cfg, s, song, k, c, n, j - 1);
      StepKeeps(cfg, Before(cfg, s, song, j - 1), song[j - 1], Chosen(b, c), b.count + 1, c, n);
    } else {
      StartKeeps(cfg, b, song[k], c, n);
    }
  }

  lemma StartKeeps(cfg: Setup, s: Situation, ev: Event, c: nat, n: byte)
    requires InForm(cfg, s) && ev.channel < 16 && c < 16 && Starts(cfg, s, ev, c, n)
    ensures Keeps(After(cfg, s, ev), Chosen(s, c), s.count + 1, c, n) && After(cfg, s, ev).percussive == s.percussive
  {
    hide Start, Stop, After, BestVoice;
    var s1, x := NoteEvent(cfg, s, ev);
    StartVoices(cfg, s1, x, n, Heard(s, ev));
  }

  /** A melodic note sounds until it is ended or the mode is switched, whatever else is played, as long as
      fewer notes are started after it than there are voices. */
  lemma {:induction false} NotStolen(cfg: Setup, s: Situation, song: seq<Event>, k: nat, c: nat, n: byte, j: nat)
    requires InForm(cfg, s) && Sane(s) && OnChannels(song) && k < j <= |song|
    requires forall i :: 0 <= i < |song| ==> song[i].channel < 16
    requires Starts(cfg, Before(cfg, s, song, k), song[k], c, n)
    requires c < 16 && !Drums(Before(cfg, s, song, k).percussive, c)
    requires forall i :: k < i < j ==> !Switches(song[i]) && !Ends(cfg, Before(cfg, s, song, i), song[i], c, n)
    requires Before(cfg, s, song, j).count <= Before(cfg, s, song, k).count + VoicesOf(Before(cfg, s, song, k).percussive)
    ensures Sounding(Before(cfg, s, song, j), c, n)
    ensures var b := Before(cfg, s, song, k);
            Keeps(Before(cfg, s, song, j), Chosen(b, c), b.count + 1, c, n) && Before(cfg, s, song, j).percussive == b.percussive
    decreases j
  {
    hide Sane, After, AfterAll, OnChannels, Starts, Ends, Takes, Chosen, Switches;
    var b := Before(cfg, s, song, k);
    RunSane(cfg, s, song, j - 1, j);
    RunSane(cfg, s, song, 0, j - 1);
    OneMore(cfg, s, song, j - 1);
    if j - 1 > k {
      NotStolen(cfg, s, song, k, c, n, j - 1);
      var t := Before(cfg, s, song, j - 1);
      if Takes(cfg, t, song[j - 1], Chosen(b, c)) {
        TakenLate(cfg, t, song[j - 1], b, c);
      }
      StepKeeps(cfg, t, song[j - 1], Chosen(b, c), b.count + 1, c, n);
    } else {
      StartKeeps(cfg, b, song[k], c, n);
    }
    assert Matches(Before(cfg, s, song, j).voices[Chosen(b, c)], c, n);
  }

  /** The note that takes the voice of a sounding one is late. */
  lemma TakenLate(cfg: Setup, s: Situation, ev: Event, b: Situation, c: nat)
    requires InForm(cfg, s) && ev.channel < 16 && Sane(s) && |b.voices| == 9 && c < 16 && b.percussive == s.percussive
    requires !Drums(b.percussive, c) && Takes(cfg, s, ev, Chosen(b, c)) && s.voices[Chosen(b, c)].start == b.count + 1
    ensures After(cfg, s, ev).count > b.count + VoicesOf(b.percussive)
  {
    hide Start, Stop, After, BestVoice;
    var s1, x := NoteEvent(cfg, s, ev);
    StartVoices(cfg, s1, x, ev.note, Heard(s, ev));
    CutLate(s, x, Chosen(b, c));
  }
}
