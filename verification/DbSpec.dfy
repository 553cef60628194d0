/** The AdPlug database as values: entries in insertion order, some of them wiped, the hash chains
    through them, and the finite map they stand for (src/database.cpp). */
module DbSpec {
  import opened Bits

  datatype Key = Key(crc16: nat, crc32: nat)

  datatype Body = Plain | SongInfo(title: seq<byte>, author: seq<byte>) | ClockSpeed(clock: seq<byte>)

  datatype Record = Record(key: Key, filetype: seq<byte>, comment: seq<byte>, body: Body)

  datatype Entry = Entry(record: Record, deleted: bool)

  const RADIX: nat := 0xfff1

  function Hash(k: Key): (h: nat)
    ensures h < RADIX
  {
    (k.crc32 + k.crc16) % RADIX
  }

  // Hash chains

  /** The first position from `i` on whose key hashes to `h`, or |keys|. */
  function NextFrom(keys: seq<Key>, i: nat, h: nat): (j: nat)
    requires i <= |keys|
    ensures i <= j <= |keys| && (j < |keys| ==> Hash(keys[j]) == h)
    ensures forall k :: i <= k < j ==> Hash(keys[k]) != h
    decreases |keys| - i
  {
    if i == |keys| || Hash(keys[i]) == h then i else NextFrom(keys, i + 1, h)
  }

  function Chain(keys: seq<Key>, i: nat, h: nat): seq<nat>
    requires i <= |keys|
    decreases |keys| - i
  {
    var j := NextFrom(keys, i, h);
    if j == |keys| then [] else [j] + Chain(keys, j + 1, h)
  }

  /** The chain of `h` runs upwards through exactly the positions that hash to `h`. */
  lemma {:induction false} ChainCovers(keys: seq<Key>, i: nat, h: nat)
    requires i <= |keys|
    ensures forall j :: j in Chain(keys, i, h) <==> i <= j < |keys| && Hash(keys[j]) == h
    ensures forall a, b :: 0 <= a < b < |Chain(keys, i, h)| ==> Chain(keys, i, h)[a] < Chain(keys, i, h)[b]
    decreases |keys| - i
  {
    var j := NextFrom(keys, i, h);
    if j < |keys| {
      var rest := Chain(keys, j + 1, h);
      ChainCovers(keys, j + 1, h);
      assert forall b :: 0 <= b < |rest| ==> rest[b] in rest;
    }
  }

  /** A key added at the end joins its own chain, behind everything else. */
  lemma {:induction false} NextFromAppend(keys: seq<Key>, k: Key, i: nat, h: nat)
    requires i <= |keys|
    ensures NextFrom(keys + [k], i, h) ==
            if NextFrom(keys, i, h) < |keys| then NextFrom(keys, i, h)
            else if Hash(k) == h then |keys| else |keys| + 1
    decreases |keys| - i
  {
    if i < |keys| {
      NextFromAppend(keys, k, i + 1, h);
    }
  }

  // Entries and the map they stand for

  predicate LiveAt(entries: seq<Entry>, i: int, k: Key) {
    0 <= i < |entries| && !entries[i].deleted && entries[i].record.key == k
  }

  ghost predicate Distinct(entries: seq<Entry>) {
    forall i, j :: 0 <= i < j < |entries| && !entries[i].deleted && !entries[j].deleted ==>
      entries[i].record.key != entries[j].record.key
  }

  function MapOf(entries: seq<Entry>): map<Key, Record> {
    if entries == [] then map[]
    else
      var m, e := MapOf(entries[..|entries| - 1]), entries[|entries| - 1];
      if e.deleted then m else m[e.record.key := e.record]
  }

  function LiveCount(entries: seq<Entry>): nat {
    if entries == [] then 0
    else LiveCount(entries[..|entries| - 1]) + if entries[|entries| - 1].deleted then 0 else 1
  }

  function Records(entries: seq<Entry>): seq<Record> {
    if entries == [] then []
    else
      var e := entries[|entries| - 1];
      Records(entries[..|entries| - 1]) + if e.deleted then [] else [e.record]
  }

  /** The map holds exactly the live records, and there are as many as the counter says. */
  lemma {:induction false} MapHolds(entries: seq<Entry>)
    requires Distinct(entries)
    ensures forall k :: k in MapOf(entries) <==> exists i :: LiveAt(entries, i, k)
    ensures forall i, k :: LiveAt(entries, i, k) ==> k in MapOf(entries) && MapOf(entries)[k] == entries[i].record
    ensures |MapOf(entries)| == LiveCount(entries) == |Records(entries)|
  {
    if entries != [] {
      var n := |entries| - 1;
      var pre, e := entries[..n], entries[n];
      MapHolds(pre);
      forall k
        ensures k in MapOf(entries) <==> exists i :: LiveAt(entries, i, k)
      {
        if k in MapOf(pre) {
          var i :| LiveAt(pre, i, k);
          assert LiveAt(entries, i, k);
        } else if k in MapOf(entries) {
          assert LiveAt(entries, n, k);
        }
        if i :| LiveAt(entries, i, k) {
          assert i == n || LiveAt(pre, i, k);
        }
      }
      forall i, k | LiveAt(entries, i, k)
        ensures k in MapOf(entries) && MapOf(entries)[k] == entries[i].record
      {
        assert i == n || LiveAt(pre, i, k);
      }
      if !e.deleted {
        assert e.record.key !in MapOf(pre);
      }
    }
  }

  /** Inserting a key that is not live extends the map. */
  lemma MapInsert(entries: seq<Entry>, r: Record)
    requires Distinct(entries) && !exists i :: LiveAt(entries, i, r.key)
    ensures Distinct(entries + [Entry(r, false)])
    ensures MapOf(entries + [Entry(r, false)]) == MapOf(entries)[r.key := r]
    ensures LiveCount(entries + [Entry(r, false)]) == LiveCount(entries) + 1
    ensures Records(entries + [Entry(r, false)]) == Records(entries) + [r]
  {
    var es := entries + [Entry(r, false)];
    assert es[..|entries|] == entries;
    forall i, j | 0 <= i < j < |es| && !es[i].deleted && !es[j].deleted
      ensures es[i].record.key != es[j].record.key
    {
      assert LiveAt(es, i, es[i].record.key);
      if j == |entries| { assert !LiveAt(entries, i, r.key); }
    }
  }

  function Wiped(entries: seq<Entry>, i: nat): seq<Entry>
    requires i < |entries|
  {
    entries[i := entries[i].(deleted := true)]
  }

  lemma LastKeyIsNew(entries: seq<Entry>)
    requires Distinct(entries) && entries != [] && !entries[|entries| - 1].deleted
    ensures entries[|entries| - 1].record.key !in MapOf(entries[..|entries| - 1])
  {
    hide MapOf;
    var n := |entries| - 1;
    MapHolds(entries[..n]);
    assert forall j, k :: LiveAt(entries[..n], j, k) ==> LiveAt(entries, j, k);
  }

  /** Wiping a live entry takes its key out of the map, and leaves a tombstone. */
  lemma {:induction false} MapWipe(entries: seq<Entry>, i: nat)
    requires Distinct(entries) && i < |entries| && !entries[i].deleted
    ensures Distinct(Wiped(entries, i))
    ensures MapOf(Wiped(entries, i)) == MapOf(entries) - {entries[i].record.key}
    ensures LiveCount(Wiped(entries, i)) == LiveCount(entries) - 1
  {
    var n := |entries| - 1;
    var w := Wiped(entries, i);
    if i == n {
      LastKeyIsNew(entries);
      assert w[..n] == entries[..n];
    } else {
      assert w[..n] == Wiped(entries[..n], i);
      MapWipe(entries[..n], i);
    }
  }

  /** A wiped key can be inserted again, and then the map is as if it had been overwritten. */
  lemma WipeThenInsert(entries: seq<Entry>, i: nat, r: Record)
    requires Distinct(entries) && LiveAt(entries, i, r.key)
    ensures !exists j :: LiveAt(Wiped(entries, i), j, r.key)
    ensures MapOf(Wiped(entries, i) + [Entry(r, false)]) == MapOf(entries)[r.key := r]
  {
    var w := Wiped(entries, i);
    assert forall j :: LiveAt(w, j, r.key) ==> LiveAt(entries, j, r.key);
    MapWipe(entries, i);
    MapInsert(w, r);
  }
}
