/** Whole runs of the Westwood ADL driver, and the queue that they amount to. */
module AdlRun {
  import opened Wrappers
  import opened Bits
  import opened AdlSpec
  import opened AdlMachine
  import opened AdlLaws
  import opened Adl

  // The queue of a run

  predicate IsReset(call: Call) {
    call.StopAll? || call.NewData?
  }

  /** The resets of a run find nothing queued outside the first slot. */
  predicate ResetsClean(cfg: Settings, s: Situation, calls: seq<Call>)
    requires InForm(s) && forall i :: 0 <= i < |calls| ==> Allowed(calls[i])
  {
    forall i :: 0 <= i < |calls| && IsReset(calls[i]) ==>
      var r := AfterAll(cfg, s, calls[..i]).ring; Pending(r) == [] || (|Pending(r)| == 1 && r.start == 0)
  }

  /** The operations of a run on its queue, since the last reset. */
  function OpsOfAll(cfg: Settings, s: Situation, calls: seq<Call>): seq<Op>
    requires InForm(s) && forall i :: 0 <= i < |calls| ==> Allowed(calls[i])
  {
    if calls == [] then []
    else
      var n := |calls| - 1;
      if IsReset(calls[n]) then [] else OpsOfAll(cfg, s, calls[..n]) + OpsOf(cfg, AfterAll(cfg, s, calls[..n]), calls[n])
  }

  /** What the queue held when they began. */
  function Initially(s: Situation, calls: seq<Call>): seq<Entry>
    requires InForm(s)
  {
    if exists i :: 0 <= i < |calls| && IsReset(calls[i]) then [] else Pending(s.ring)
  }

  lemma OneCall(cfg: Settings, s: Situation, call: Call)
    requires InForm(s) && Allowed(call) && Clean(s.ring)
    requires IsReset(call) ==> Pending(s.ring) == [] || (|Pending(s.ring)| == 1 && s.ring.start == 0)
    ensures var r := After(cfg, s, call).ring;
            Clean(r) && Pending(r) == if IsReset(call) then [] else FifoRun(Pending(s.ring), OpsOf(cfg, s, call))
  {
    hide Clean, Pending, Put, Take, OutcomeOf, Adjusted, StartWrites, StopWrites, ProgramAt;
    if IsReset(call) {
      ResetCleanIff(s.ring);
    } else {
      RingIsFifo(s.ring, OpsOf(cfg, s, call));
    }
  }

  /** A callback on a clean queue: the first program leaves it; and if it was outranked while sounds are
      retried, and is not the one that stops sounds, it goes round to the end. */
  lemma TickQueue(cfg: Settings, s: Situation, ptr: nat)
    requires InForm(s) && Clean(s.ring) && s.timeout == 0 && Pending(s.ring) != [] && Pending(s.ring)[0].data == Some(ptr)
    requires Begins(s.data, s.sfx, ptr)
    ensures var after, head := After(cfg, s, Tick), Pending(s.ring)[0];
            && |after.data| == |s.data| && Clean(after.ring)
            && Pending(after.ring) == Pending(s.ring)[1..] +
                 if after.data[ptr + 1] < s.channels[s.data[ptr]].priority && s.retry && head.id != 0 && ProgramAt(after.data, head.id).Some?
                 then [Entry(ProgramAt(after.data, head.id), head.id, head.volume)] else []
  {
    hide Clean, Pending, Put, Take, Adjusted, StartWrites, StopWrites, ProgramAt, RingRun;
    HeadFirst(s.ring);
    OneCall(cfg, s, Tick);
    assert HasHeader(s.data, ptr) && CanAdjust(s.data, s.sfx, ptr) && Takes(s);
    FifoOfTwo(Pending(s.ring), OpsOf(cfg, s, Tick));
    PendingFits(s.ring);
  }

  lemma HeadFirst(r: Ring)
    requires IsRing(r) && Pending(r) != []
    ensures Pending(r)[0] == r.slots[r.start]
  {
  }

  lemma PendingFits(r: Ring)
    requires IsRing(r)
    ensures |Pending(r)| <= SLOTS
  {
  }

  lemma FifoOfTwo(q: seq<Entry>, ops: seq<Op>)
    ensures |ops| == 1 ==> FifoRun(q, ops) == Fifo1(q, ops[0])
    ensures |ops| == 2 ==> FifoRun(q, ops) == Fifo1(Fifo1(q, ops[0]), ops[1])
  {
    if |ops| == 2 {
      assert ops[1..][1..] == [];
      assert FifoRun(Fifo1(q, ops[0]), ops[1..]) == FifoRun(Fifo1(Fifo1(q, ops[0]), ops[1]), []);
    }
  }

  /** The run without its last call. */
  lemma Before(cfg: Settings, s: Situation, calls: seq<Call>)
    requires InForm(s) && (forall i :: 0 <= i < |calls| ==> Allowed(calls[i])) && calls != []
    ensures var n := |calls| - 1; var before, last := calls[..n], calls[n];
            && (ResetsClean(cfg, s, calls) ==> ResetsClean(cfg, s, before))
            && AfterAll(cfg, s, calls) == After(cfg, AfterAll(cfg, s, before), last)
            && (!IsReset(last) ==>
                  && Initially(s, calls) == Initially(s, before)
                  && OpsOfAll(cfg, s, calls) == OpsOfAll(cfg, s, before) + OpsOf(cfg, AfterAll(cfg, s, before), last))
            && (IsReset(last) ==> Initially(s, calls) == [] && OpsOfAll(cfg, s, calls) == [])
  {
    hide After, OpsOf, Pending;
    var n := |calls| - 1;
    var before := calls[..n];
    assert forall i :: 0 <= i < n ==> before[..i] == calls[..i] && before[i] == calls[i];
  }

  /** What ResetsClean says of the last call. */
  lemma LastReset(cfg: Settings, s: Situation, calls: seq<Call>)
    requires InForm(s) && (forall i :: 0 <= i < |calls| ==> Allowed(calls[i])) && calls != [] && ResetsClean(cfg, s, calls)
    ensures var n := |calls| - 1; var r := AfterAll(cfg, s, calls[..n]).ring;
            IsReset(calls[n]) ==> Pending(r) == [] || (|Pending(r)| == 1 && r.start == 0)
  {
    hide AfterAll, Pending;
  }

  /** A run from a clean queue: as long as resets find it clean enough, what is pending is what a
      first-in first-out queue of 16 holds after the run's operations. */
  lemma {:induction false} RunIsFifo(cfg: Settings, s: Situation, calls: seq<Call>)
    requires InForm(s) && (forall i :: 0 <= i < |calls| ==> Allowed(calls[i])) && Clean(s.ring) && ResetsClean(cfg, s, calls)
    ensures var r := AfterAll(cfg, s, calls).ring;
            Clean(r) && Pending(r) == FifoRun(Initially(s, calls), OpsOfAll(cfg, s, calls))
  {
    if calls == [] {
      assert Initially(s, calls) == Pending(s.ring);
    } else {
      hide Clean, Pending, After, OpsOf, OpsOfAll, Initially, ResetsClean, AfterAll;
      var n := |calls| - 1;
      var before := calls[..n];
      Before(cfg, s, calls);
      LastReset(cfg, s, calls);
      RunIsFifo(cfg, s, before);
      OneCall(cfg, AfterAll(cfg, s, before), calls[n]);
      FifoRunConcat(Initially(s, before), OpsOfAll(cfg, s, before), OpsOf(cfg, AfterAll(cfg, s, before), calls[n]));
    }
  }

  /** In order: what was pending, then what was queued, is what was taken off, then what is pending. */
  lemma RunServesInOrder(cfg: Settings, s: Situation, calls: seq<Call>)
    requires InForm(s) && (forall i :: 0 <= i < |calls| ==> Allowed(calls[i])) && Clean(s.ring) && ResetsClean(cfg, s, calls)
    ensures var q, ops := Initially(s, calls), OpsOfAll(cfg, s, calls);
            q + Accepted(q, ops) == HandedOut(q, ops) + Pending(AfterAll(cfg, s, calls).ring)
  {
    hide Clean, Pending, AfterAll, OpsOfAll;
    RunIsFifo(cfg, s, calls);
    ServedInOrder(Initially(s, calls), OpsOfAll(cfg, s, calls));
  }

  // The driver

  /** Any calls in any order, from any state: the driver ends as the machine says, with the sound data
      of the last load but for the current effect; and from a clean queue, as long as resets find it
      clean enough, its queue is the first-in first-out one. */
  method RunCalls(d: Driver, calls: seq<Call>)
    requires d.Valid() && forall i :: 0 <= i < |calls| ==> Allowed(calls[i])
    modifies d, d.programQueue, d.channels, d.soundData
    ensures d.Valid() && d.Settings() == old(d.Settings()) && d.Situation() == AfterAll(d.Settings(), old(d.Situation()), calls)
    ensures (forall i :: 0 <= i < |calls| ==> !calls[i].NewData?) ==> d.original == old(d.original)
    ensures (forall i :: 0 <= i < |calls| ==> !calls[i].Finish? && !calls[i].StopAll?) ==>
              NoneLower(old(d.channels[..]), d.channels[..])
    ensures old(Clean(d.Queue())) && ResetsClean(old(d.Settings()), old(d.Situation()), calls) ==>
              && Clean(d.Queue())
              && Pending(d.Queue()) == FifoRun(Initially(old(d.Situation()), calls), OpsOfAll(old(d.Settings()), old(d.Situation()), calls))
  {
    hide Clean, Pending, After, ResetsClean, OpsOfAll, Initially, Unpatched;
    ghost var s, cfg := d.Situation(), d.Settings();
    for i := 0 to |calls|
      invariant d.Valid() && d.Settings() == cfg && d.Situation() == AfterAll(cfg, s, calls[..i])
      invariant d.soundData == old(d.soundData) || fresh(d.soundData)
      invariant (forall j :: 0 <= j < i ==> !calls[j].NewData?) ==> d.original == old(d.original)
    {
      assert calls[..i + 1][..i] == calls[..i];
      RunCall(d, calls[i]);
    }
    assert calls[..|calls|] == calls;
    if Clean(s.ring) && ResetsClean(cfg, s, calls) { RunIsFifo(cfg, s, calls); }
    if forall i :: 0 <= i < |calls| ==> !calls[i].Finish? && !calls[i].StopAll? { PrioritiesStay(cfg, s, calls); }
  }

  method RunCall(d: Driver, call: Call)
    requires d.Valid() && Allowed(call)
    modifies d, d.programQueue, d.channels, d.soundData
    ensures d.Valid() && d.Settings() == old(d.Settings()) && d.Situation() == After(d.Settings(), old(d.Situation()), call)
    ensures d.soundData == old(d.soundData) || fresh(d.soundData)
    ensures !call.NewData? ==> d.original == old(d.original)
  {
    hide Put, Take, OutcomeOf, Adjusted, StartWrites, StopWrites, ProgramAt, Unpatched;
    ghost var s := d.Situation();
    OneOrTwo(s.ring, OpsOf(d.Settings(), s, call));
    match call {
      case Start(track, volume) => d.StartSound(track, volume);
      case Tick => d.Callback();
      case Finish(chan) => d.channels[chan] := d.channels[chan].(priority := 0, dataptr := None);
      case StopAll =>
        d.StopAllChannels();
        assert d.channels[..] == After(d.Settings(), s, StopAll).channels;
      case NewData(data) =>
        var a := new byte[|data|](i requires 0 <= i < |data| => data[i]);
        d.SetSoundData(a);
        assert a[..] == data;
    }
  }
}
