/** The program queue of the Westwood ADL driver (src/adl.cpp): a ring of 16 slots without a count, in
    which a null data pointer alone tells empty from full. */
module AdlSpec {
  import opened Wrappers
  import opened Bits

  const SLOTS: nat := 16

  /** A queued program: where its data begins, with the track number and volume as far as they fit a byte. */
  datatype Entry = Entry(data: Option<nat>, id: byte, volume: byte)

  const NONE: Entry := Entry(None, 0, 0)

  datatype Ring = Ring(slots: seq<Entry>, start: nat, end: nat)

  predicate IsRing(r: Ring) {
    |r.slots| == SLOTS && r.start < SLOTS && r.end < SLOTS
  }

  /** A slot number, one lap at most ahead, back in the ring. */
  function Wrap(i: nat): (w: nat)
    requires i < 2 * SLOTS
    ensures w < SLOTS && w == i % SLOTS
  {
    if i < SLOTS then i else i - SLOTS
  }

  function Count(r: Ring): (n: nat)
    requires IsRing(r)
    ensures n <= SLOTS
  {
    if r.start == r.end then if r.slots[r.start].data.Some? then SLOTS else 0
    else if r.end > r.start then r.end - r.start else r.end + SLOTS - r.start
  }

  /** How far a slot is behind the start. */
  function Place(r: Ring, i: nat): (k: nat)
    requires IsRing(r) && i < SLOTS
    ensures k < SLOTS
  {
    if i >= r.start then i - r.start else i + SLOTS - r.start
  }

  function SlotOf(r: Ring, k: nat): (i: nat)
    requires IsRing(r) && k < SLOTS
    ensures i < SLOTS
  {
    Wrap(r.start + k)
  }

  /** Exactly the slots from start to end hold data. */
  predicate Clean(r: Ring)
    requires IsRing(r)
  {
    forall i :: 0 <= i < SLOTS ==> (r.slots[i].data.Some? <==> Place(r, i) < Count(r))
  }

  /** The queue that the ring stands for, first come first. */
  function Pending(r: Ring): (q: seq<Entry>)
    requires IsRing(r)
    ensures |q| == Count(r)
    ensures Clean(r) ==> forall k :: 0 <= k < |q| ==> q[k].data.Some?
  {
    assert forall k :: 0 <= k < Count(r) ==> Place(r, SlotOf(r, k)) == k;
    seq(Count(r), k requires 0 <= k < Count(r) => r.slots[SlotOf(r, k)])
  }

  function Put(r: Ring, e: Entry): (r': Ring)
    requires IsRing(r)
    ensures IsRing(r')
  {
    if r.start == r.end && r.slots[r.end].data.Some? then r
    else Ring(r.slots[r.end := e], r.start, Wrap(r.end + 1))
  }

  /** The source's test for an empty queue. */
  predicate LooksEmpty(r: Ring)
    requires IsRing(r)
  {
    r.start == r.end && r.slots[r.start].data.None?
  }

  function Take(r: Ring): (r': Ring)
    requires IsRing(r)
    ensures IsRing(r')
  {
    if LooksEmpty(r) then r
    else Ring(r.slots[r.start := r.slots[r.start].(data := None)], Wrap(r.start + 1), r.end)
  }

  lemma PutAppends(r: Ring, e: Entry)
    requires IsRing(r) && Clean(r) && e.data.Some?
    ensures Clean(Put(r, e))
    ensures Pending(Put(r, e)) == if |Pending(r)| == SLOTS then Pending(r) else Pending(r) + [e]
  {
    var r', n := Put(r, e), Count(r);
    if n < SLOTS {
      PutCount(r, e);
      forall i | 0 <= i < SLOTS
        ensures r'.slots[i].data.Some? <==> Place(r', i) < n + 1
      {
        assert r.slots[i].data.Some? <==> Place(r, i) < n;
      }
      assert SlotOf(r, n) == r.end;
      forall k | 0 <= k < n
        ensures Pending(r')[k] == Pending(r)[k]
      {
        Place16(r, k);
      }
    }
  }

  lemma PutCount(r: Ring, e: Entry)
    requires IsRing(r) && Clean(r) && Count(r) < SLOTS && e.data.Some?
    ensures r.slots[r.end].data.None? && Count(Put(r, e)) == Count(r) + 1
  {
    assert Place(r, r.end) == Count(r);
    assert Place(r, r.start) == 0;
  }

  lemma Place16(r: Ring, k: nat)
    requires IsRing(r) && k < SLOTS
    ensures Place(r, SlotOf(r, k)) == k
  {
  }

  lemma TakeDrops(r: Ring)
    requires IsRing(r) && Clean(r)
    ensures LooksEmpty(r) <==> Pending(r) == []
    ensures Clean(Take(r))
    ensures Pending(Take(r)) == if Pending(r) == [] then [] else Pending(r)[1..]
    ensures Pending(r) != [] ==> Pending(r)[0] == r.slots[r.start] && r.slots[r.start].data.Some?
  {
    var r', n := Take(r), Count(r);
    assert Place(r, r.start) == 0;
    if n > 0 {
      assert Pending(r)[0] == r.slots[SlotOf(r, 0)];
      TakeCount(r);
      forall i | 0 <= i < SLOTS
        ensures r'.slots[i].data.Some? <==> Place(r', i) < n - 1
      {
        assert r.slots[i].data.Some? <==> Place(r, i) < n;
        assert i != r.start ==> Place(r', i) == Place(r, i) - 1;
      }
      forall k | 0 <= k < n - 1
        ensures Pending(r')[k] == Pending(r)[k + 1]
      {
        Place16(r, k + 1);
        assert SlotOf(r', k) == SlotOf(r, k + 1);
      }
    }
  }

  lemma TakeCount(r: Ring)
    requires IsRing(r) && Clean(r) && Count(r) > 0
    ensures Count(Take(r)) == Count(r) - 1
  {
    var r' := Take(r);
    assert Place(r, r.start) == 0 && Place(r, r'.start) == 1;
  }

  // Any run between resets

  datatype Op = Enqueue(e: Entry) | Dequeue

  function Ring1(r: Ring, op: Op): (r': Ring)
    requires IsRing(r)
    ensures IsRing(r')
  {
    match op
    case Enqueue(e) => if e.data.Some? then Put(r, e) else r
    case Dequeue => Take(r)
  }

  function Fifo1(q: seq<Entry>, op: Op): seq<Entry> {
    match op
    case Enqueue(e) => if e.data.Some? && |q| < SLOTS then q + [e] else q
    case Dequeue => if q == [] then q else q[1..]
  }

  function RingRun(r: Ring, ops: seq<Op>): (r': Ring)
    requires IsRing(r)
    ensures IsRing(r')
    decreases |ops|
  {
    if ops == [] then r else RingRun(Ring1(r, ops[0]), ops[1..])
  }

  function FifoRun(q: seq<Entry>, ops: seq<Op>): seq<Entry>
    decreases |ops|
  {
    if ops == [] then q else FifoRun(Fifo1(q, ops[0]), ops[1..])
  }

  /** The ring is a first-in first-out queue of at most 16. */
  lemma {:induction false} RingIsFifo(r: Ring, ops: seq<Op>)
    requires IsRing(r) && Clean(r)
    ensures Clean(RingRun(r, ops)) && Pending(RingRun(r, ops)) == FifoRun(Pending(r), ops)
    decreases |ops|
  {
    hide Put, Take, Clean, Pending;
    if ops != [] {
      match ops[0] {
        case Enqueue(e) => if e.data.Some? { PutAppends(r, e); }
        case Dequeue => TakeDrops(r);
      }
      RingIsFifo(Ring1(r, ops[0]), ops[1..]);
    }
  }

  /** What a run takes in, and what it hands out, in order. */
  function Accepted(q: seq<Entry>, ops: seq<Op>): seq<Entry>
    decreases |ops|
  {
    if ops == [] then []
    else
      (if ops[0].Enqueue? && ops[0].e.data.Some? && |q| < SLOTS then [ops[0].e] else []) + Accepted(Fifo1(q, ops[0]), ops[1..])
  }

  function HandedOut(q: seq<Entry>, ops: seq<Op>): seq<Entry>
    decreases |ops|
  {
    if ops == [] then []
    else (if ops[0].Dequeue? && q != [] then [q[0]] else []) + HandedOut(Fifo1(q, ops[0]), ops[1..])
  }

  /** First come, first served, and nothing lost. */
  lemma {:induction false} ServedInOrder(q: seq<Entry>, ops: seq<Op>)
    ensures q + Accepted(q, ops) == HandedOut(q, ops) + FifoRun(q, ops)
    decreases |ops|
  {
    if ops != [] {
      var q1 := Fifo1(q, ops[0]);
      ServedInOrder(q1, ops[1..]);
      var gone := if ops[0].Dequeue? && q != [] then [q[0]] else [];
      var joins := if ops[0].Enqueue? && ops[0].e.data.Some? && |q| < SLOTS then [ops[0].e] else [];
      assert q + joins == gone + q1;
      InFront(q, joins, gone, q1, Accepted(q1, ops[1..]), HandedOut(q1, ops[1..]), FifoRun(q1, ops[1..]));
    }
  }

  lemma InFront<T>(q: seq<T>, joins: seq<T>, gone: seq<T>, q1: seq<T>, more: seq<T>, out: seq<T>, left: seq<T>)
    requires q + joins == gone + q1 && q1 + more == out + left
    ensures q + (joins + more) == (gone + out) + left
  {
    assert q + (joins + more) == (q + joins) + more == gone + (q1 + more);
  }

  lemma {:induction false} FifoRunConcat(q: seq<Entry>, a: seq<Op>, b: seq<Op>)
    ensures FifoRun(q, a + b) == FifoRun(FifoRun(q, a), b)
    decreases |a|
  {
    if a == [] {
      assert a + b == b;
    } else {
      assert (a + b)[1..] == a[1..] + b;
      FifoRunConcat(Fifo1(q, a[0]), a[1..], b);
    }
  }

  // Resets

  /** setSoundData and stopAllChannels clear the first slot only. */
  function Reset(r: Ring): (r': Ring)
    requires IsRing(r)
    ensures IsRing(r')
  {
    Ring(r.slots[0 := NONE], 0, 0)
  }

  /** A reset gives a clean, empty queue exactly if nothing was queued outside the first slot. */
  lemma ResetCleanIff(r: Ring)
    requires IsRing(r) && Clean(r)
    ensures Clean(Reset(r)) <==> Pending(r) == [] || (|Pending(r)| == 1 && r.start == 0)
    ensures Pending(Reset(r)) == []
  {
    var z := Reset(r);
    assert Count(z) == 0;
    if Pending(r) == [] || (|Pending(r)| == 1 && r.start == 0) {
      forall i | 0 <= i < SLOTS
        ensures z.slots[i].data.None?
      {
        assert r.slots[i].data.Some? <==> Place(r, i) < Count(r);
      }
    } else {
      var k := if r.start > 0 then r.start else 1;
      assert Place(r, k) < Count(r);
      assert z.slots[k].data.Some?;
      assert !(Place(z, k) < Count(z));
    }
  }

  /** `n` times a program is queued and then started, from a reset on. */
  function Rounds(r: Ring, e: Entry, n: nat): (r': Ring)
    requires IsRing(r)
    ensures IsRing(r')
  {
    if n == 0 then Reset(r) else Take(Put(Rounds(r, e, n - 1), e))
  }

  lemma OneRound(z: Ring, e: Entry)
    requires IsRing(z) && e.data.Some? && z.start == z.end < SLOTS - 1 && z.slots[z.end].data.None?
    ensures Take(Put(z, e)) == Ring(z.slots[z.end := e.(data := None)], z.end + 1, z.end + 1)
  {
  }

  lemma {:induction false} RoundsReach(r: Ring, e: Entry, n: nat)
    requires IsRing(r) && e.data.Some? && n < SLOTS
    requires forall i :: 1 <= i < n ==> r.slots[i].data.None?
    ensures var z := Rounds(r, e, n);
            z.start == z.end == n && forall i :: n <= i < SLOTS ==> z.slots[i] == Reset(r).slots[i]
    ensures forall i :: 0 <= i < n ==> Rounds(r, e, n).slots[i].data.None?
    decreases n
  {
    hide Take, Put;
    if n > 0 {
      RoundsReach(r, e, n - 1);
      OneRound(Rounds(r, e, n - 1), e);
    }
  }

  /** The harm, and when it is done: after a reset, taking what was put always leaves the queue empty,
      unless a stale slot is left; the first one then counts as 16 queued programs. */
  lemma StaleSlotSurfaces(r: Ring, e: Entry)
    requires IsRing(r) && e.data.Some?
    ensures (forall n :: 0 <= n < SLOTS ==> LooksEmpty(Rounds(r, e, n))) <==> Clean(Reset(r))
  {
    hide Rounds;
    var z := Reset(r);
    if k :| 1 <= k < SLOTS && r.slots[k].data.Some? {
      var first := FirstStale(r, k);
      RoundsReach(r, e, first);
      assert !LooksEmpty(Rounds(r, e, first));
      assert z.slots[k].data.Some? && !(Place(z, k) < Count(z));
    } else {
      forall n | 0 <= n < SLOTS
        ensures LooksEmpty(Rounds(r, e, n))
      {
        RoundsReach(r, e, n);
      }
    }
  }

  lemma FirstStale(r: Ring, k: nat) returns (first: nat)
    requires IsRing(r) && 1 <= k < SLOTS && r.slots[k].data.Some?
    ensures 1 <= first <= k && r.slots[first].data.Some? && forall i :: 1 <= i < first ==> r.slots[i].data.None?
  {
    first := 1;
    while r.slots[first].data.None?
      invariant 1 <= first <= k && forall i :: 1 <= i < first ==> r.slots[i].data.None?
      decreases k - first
    {
      first := first + 1;
    }
  }
}
