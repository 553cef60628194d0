/** CAdPlugDatabase of src/database.cpp: buckets in a linear array, and hash chains through them. */
module Database {
  import opened Wrappers
  import opened Bits
  import opened DbSpec
  import opened DbFormat

  class Bucket {
    const index: nat
    const record: Record
    var deleted: bool
    var chain: Bucket?

    constructor (index: nat, record: Record)
      ensures this.index == index && this.record == record && !deleted && chain == null
    {
      this.index, this.record := index, record;
      deleted, chain := false, null;
    }
  }

  /** The bucket at a position, null behind the last. */
  ghost function At(buckets: seq<Bucket>, i: nat): Bucket? {
    if i < |buckets| then buckets[i] else null
  }

  /** Every bucket is linked to the next one with its hash. */
  ghost predicate LinksOk(buckets: seq<Bucket>, links: seq<Bucket?>, keys: seq<Key>) {
    && |buckets| == |links| == |keys|
    && forall i :: 0 <= i < |links| ==> links[i] == At(buckets, NextFrom(keys, i + 1, Hash(keys[i])))
  }

  /** Every hash slot refers to the first bucket with that hash. */
  ghost predicate HeadsOk(buckets: seq<Bucket>, heads: seq<Bucket?>, keys: seq<Key>) {
    |heads| == RADIX && |buckets| == |keys| && forall h :: 0 <= h < RADIX ==> heads[h] == At(buckets, NextFrom(keys, 0, h))
  }

  /** All of a chain but its last bucket has a successor in it. */
  lemma ChainEnds(keys: seq<Key>, h: nat, j: nat)
    requires j < |keys| ==> Hash(keys[j]) == h && NextFrom(keys, j + 1, h) == |keys|
    requires j >= |keys| ==> NextFrom(keys, 0, h) == |keys|
    ensures forall i :: 0 <= i < |keys| && Hash(keys[i]) == h && i != j ==> NextFrom(keys, i + 1, h) < |keys|
    ensures j < |keys| ==> NextFrom(keys, 0, h) < |keys|
  {
    forall i | 0 <= i < |keys| && Hash(keys[i]) == h && i != j
      ensures NextFrom(keys, i + 1, h) < |keys|
    {
      assert i < j < |keys|;
    }
  }

  /** Linking a new bucket behind the last of its chain, or to its hash slot if it is the first. */
  lemma LinkAppend(buckets: seq<Bucket>, links: seq<Bucket?>, heads: seq<Bucket?>, keys: seq<Key>, b: Bucket, tail: nat)
    requires LinksOk(buckets, links, keys) && HeadsOk(buckets, heads, keys)
    requires var h := Hash(b.record.key);
             if tail < |keys| then Hash(keys[tail]) == h && NextFrom(keys, tail + 1, h) == |keys| else NextFrom(keys, 0, h) == |keys|
    ensures LinksOk(buckets + [b], (if tail < |keys| then links[tail := b] else links) + [null], keys + [b.record.key])
    ensures HeadsOk(buckets + [b], if tail < |keys| then heads else heads[Hash(b.record.key) := b], keys + [b.record.key])
  {
    hide NextFrom, Hash, LinksOk, HeadsOk;
    ChainEnds(keys, Hash(b.record.key), tail);
    LinksAppend(buckets, links, keys, b, tail);
    HeadsAppend(buckets, heads, keys, b, tail);
  }

  lemma LinksAppend(buckets: seq<Bucket>, links: seq<Bucket?>, keys: seq<Key>, b: Bucket, tail: nat)
    requires LinksOk(buckets, links, keys)
    requires tail < |keys| ==> Hash(keys[tail]) == Hash(b.record.key) && NextFrom(keys, tail + 1, Hash(b.record.key)) == |keys|
    requires forall i :: 0 <= i < |keys| && Hash(keys[i]) == Hash(b.record.key) && i != tail ==>
               NextFrom(keys, i + 1, Hash(b.record.key)) < |keys|
    ensures LinksOk(buckets + [b], (if tail < |keys| then links[tail := b] else links) + [null], keys + [b.record.key])
  {
    hide NextFrom, Hash;
    var n, key := |keys|, b.record.key;
    forall i | 0 <= i < n
      ensures NextFrom(keys + [key], i + 1, Hash(keys[i])) ==
              if NextFrom(keys, i + 1, Hash(keys[i])) < n then NextFrom(keys, i + 1, Hash(keys[i]))
              else if i == tail then n else n + 1
    {
      NextFromAppend(keys, key, i + 1, Hash(keys[i]));
    }
  }

  lemma HeadsAppend(buckets: seq<Bucket>, heads: seq<Bucket?>, keys: seq<Key>, b: Bucket, tail: nat)
    requires HeadsOk(buckets, heads, keys)
    requires tail < |keys| <==> NextFrom(keys, 0, Hash(b.record.key)) < |keys|
    ensures HeadsOk(buckets + [b], if tail < |keys| then heads else heads[Hash(b.record.key) := b], keys + [b.record.key])
  {
    hide NextFrom, Hash;
    var n, key := |keys|, b.record.key;
    forall g | 0 <= g < RADIX
      ensures NextFrom(keys + [key], 0, g) ==
              if NextFrom(keys, 0, g) < n then NextFrom(keys, 0, g) else if g == Hash(key) then n else n + 1
    {
      NextFromAppend(keys, key, 0, g);
    }
  }

  class Db {
    const linear: array<Bucket?>
    const hashed: array<Bucket?>
    var linearIndex: nat          // the cursor
    var linearLogicLength: nat    // live buckets
    var linearLength: nat

    ghost var buckets: seq<Bucket>
    ghost var keys: seq<Key>       // their keys
    ghost var links: seq<Bucket?>  // their chain pointers
    ghost var entries: seq<Entry>  // their records, and whether they are wiped

    constructor ()
      ensures Valid() && entries == [] && fresh(linear) && fresh(hashed)
    {
      linear := new Bucket?[RADIX](_ => null);
      hashed := new Bucket?[RADIX](_ => null);
      linearIndex, linearLogicLength, linearLength := 0, 0, 0;
      buckets, keys, links, entries := [], [], [], [];
    }

    ghost predicate Keyed()
      reads this`buckets, this`keys
    {
      |keys| == |buckets| && forall i :: 0 <= i < |buckets| ==> buckets[i].index == i && buckets[i].record.key == keys[i]
    }

    ghost predicate Chained()
      reads this`buckets, this`keys, this`links, hashed, buckets
    {
      && Keyed() && hashed.Length == RADIX && |links| == |buckets|
      && LinksOk(buckets, links, keys) && HeadsOk(buckets, hashed[..], keys)
      && forall i :: 0 <= i < |buckets| ==> buckets[i].chain == links[i]
    }

    ghost predicate Marked()
      reads this`buckets, this`entries, buckets
    {
      |entries| == |buckets| && forall i :: 0 <= i < |buckets| ==> entries[i] == Entry(buckets[i].record, buckets[i].deleted)
    }

    ghost predicate Valid()
      reads this, linear, hashed, buckets
    {
      && linear.Length == hashed.Length == RADIX && linear != hashed
      && |buckets| == linearLength <= RADIX
      && (forall i :: 0 <= i < |buckets| ==> linear[i] == buckets[i])
      && Chained() && Marked()
      && Distinct(entries)
      && linearLogicLength == LiveCount(entries)
      && (linearIndex < linearLength || linearIndex == linearLength == 0)
    }

    /** Walks the chain of a key: the live bucket with that key, or null. */
    method FindBucket(key: Key) returns (bucket: Bucket?)
      requires Chained() && Marked()
      ensures bucket != null ==> LiveAt(entries, bucket.index, key)
      ensures bucket == null ==> !exists i :: LiveAt(entries, i, key)
    {
      hide NextFrom, Hash;
      ghost var h := Hash(key);
      ghost var j := NextFrom(keys, 0, h);
      bucket := hashed[Hash(key)];
      while bucket != null && (bucket.deleted || bucket.record.key != key)
        invariant 0 <= j <= |keys| && bucket == At(buckets, j)
        invariant bucket != null ==> Hash(keys[j]) == h
        invariant forall i :: 0 <= i < j ==> !LiveAt(entries, i, key)
        decreases |keys| - j
      {
        bucket := bucket.chain;
        j := NextFrom(keys, j + 1, h);
      }
      if bucket != null {
        assert LiveAt(entries, j, key);
      }
    }

    /** Finds a live record and puts the cursor on it. */
    method Lookup(key: Key) returns (found: bool)
      requires Valid()
      modifies this`linearIndex
      ensures Valid()
      ensures found <==> key in MapOf(entries)
      ensures found ==> LiveAt(entries, linearIndex, key) && MapOf(entries)[key] == entries[linearIndex].record
      ensures !found ==> linearIndex == old(linearIndex)
    {
      hide MapOf, LiveCount, Chained, Marked, Distinct;
      MapHolds(entries);
      var bucket := FindBucket(key);
      found := bucket != null;
      if found {
        linearIndex := bucket.index;
        MarkedLength();
      }
    }

    /** The record of a key, if it is live. */
    method Search(key: Key) returns (record: Option<Record>)
      requires Valid()
      modifies this`linearIndex
      ensures Valid()
      ensures record == if key in MapOf(entries) then Some(MapOf(entries)[key]) else None
      ensures record != None ==> LiveAt(entries, linearIndex, key)
      ensures record == None ==> linearIndex == old(linearIndex)
    {
      hide MapOf, LiveCount, LinksOk, HeadsOk, Distinct;
      var found := Lookup(key);
      if !found { return None; }
      MarkedLength();
      return Some(linear[linearIndex].record);
    }

    lemma MarkedLength()
      requires Marked()
      ensures |entries| == |buckets|
    {
    }

    /** The last bucket of a chain that has one. */
    method LastOf(h: nat) returns (chain: Bucket, ghost j: nat)
      requires Chained() && h < RADIX && hashed[h] != null
      ensures |links| == |buckets| == |keys| && j < |keys| && chain == buckets[j] && Hash(keys[j]) == h && NextFrom(keys, j + 1, h) == |keys|
    {
      hide NextFrom, Hash;
      chain := hashed[h];
      j := NextFrom(keys, 0, h);
      while chain.chain != null
        invariant j < |keys| && chain == buckets[j] && Hash(keys[j]) == h
        decreases |keys| - j
      {
        chain := chain.chain;
        j := NextFrom(keys, j + 1, h);
      }
    }

    /** Links a bucket behind the last of its chain. */
    method Link(bucket: Bucket)
      requires Chained() && bucket.chain == null && bucket.index == |buckets|
      modifies hashed, this`buckets, this`keys, this`links, buckets
      ensures Chained() && buckets == old(buckets) + [bucket] && keys == old(keys) + [bucket.record.key]
      ensures forall b :: b in buckets ==> b.deleted == old(b.deleted)
    {
      hide NextFrom, Hash, LinksOk, HeadsOk;
      ghost var heads := hashed[..];
      var h := Hash(bucket.record.key);
      if hashed[h] == null {
        FreeSlot(h);
        LinkAppend(buckets, links, heads, keys, bucket, |keys|);
        hashed[h] := bucket;
        assert hashed[..] == heads[h := bucket];
      } else {
        var chain, j := LastOf(h);
        LinkAppend(buckets, links, heads, keys, bucket, j);
        chain.chain := bucket;
        links := links[j := bucket];
        assert hashed[..] == heads;
      }
      buckets := buckets + [bucket];
      keys := keys + [bucket.record.key];
      links := links + [null];
    }

    lemma FreeSlot(h: nat)
      requires Chained() && h < RADIX && hashed[h] == null
      ensures NextFrom(keys, 0, h) == |keys|
    {
      assert hashed[..][h] == null;
    }

    /** Adds a record, unless the database is full or the key is live already. */
    method Insert(record: Option<Record>) returns (ok: bool)
      requires Valid()
      modifies this, linear, hashed, buckets
      ensures Valid()
      ensures ok <==> record != None && |old(entries)| < RADIX && record.value.key !in MapOf(old(entries))
      ensures entries == InsertOne(old(entries), record)
      ensures record != None && |old(entries)| < RADIX && record.value.key in MapOf(old(entries)) ==>
                LiveAt(entries, linearIndex, record.value.key)
      ensures record == None || |old(entries)| == RADIX || record.value.key !in MapOf(old(entries)) ==>
                linearIndex == old(linearIndex)
      ensures ok ==> entries == old(entries) + [Entry(record.value, false)]
                     && MapOf(entries) == MapOf(old(entries))[record.value.key := record.value]
      ensures fresh(set b | b in buckets && b !in old(buckets))
    {
      hide MapOf, LiveCount, LinksOk, HeadsOk, Distinct, Hash, NextFrom, Records;
      if record == None { return false; }
      if linearLength == RADIX { MarkedLength(); return false; }
      var found := Lookup(record.value.key);
      MarkedLength();
      if found { return false; }
      Append(record.value);
      ok := true;
    }

    /** Appends a bucket for a record whose key is not live. */
    method Append(record: Record)
      requires Valid() && linearLength < RADIX && record.key !in MapOf(entries)
      modifies this, linear, hashed, buckets
      ensures Valid()
      ensures entries == old(entries) + [Entry(record, false)] && linearIndex == old(linearIndex)
      ensures MapOf(entries) == MapOf(old(entries))[record.key := record]
      ensures fresh(set b | b in buckets && b !in old(buckets))
    {
      hide MapOf, LiveCount, LinksOk, HeadsOk, Distinct, Hash, NextFrom, Records;
      ghost var bs, es := buckets, entries;
      MapHolds(es);
      MapInsert(es, record);
      MarkedLength();
      var bucket := new Bucket(linearLength, record);
      label before:
      Link(bucket);
      assert forall b :: b in bs ==> b.deleted == old@before(b.deleted);
      linear[linearLength] := bucket;
      linearLogicLength := linearLogicLength + 1;
      linearLength := linearLength + 1;
      entries := entries + [Entry(record, false)];
      assert Marked();
    }

    /** Wipes the record under the cursor, which leaves a tombstone. */
    method WipeCurrent()
      requires Valid()
      modifies this`linearLogicLength, this`entries, buckets
      ensures Valid()
      ensures entries == if |buckets| == 0 then old(entries) else Wiped(old(entries), linearIndex)
    {
      hide MapOf, LiveCount, LinksOk, HeadsOk, Distinct, Hash, NextFrom;
      MarkedLength();
      if linearLength == 0 { return; }
      var bucket := linear[linearIndex];
      if !bucket.deleted {
        MapWipe(entries, linearIndex);
        linearLogicLength := linearLogicLength - 1;
        bucket.deleted := true;
      }
      entries := Wiped(entries, linearIndex);
      assert old(entries[linearIndex].deleted) ==> entries == old(entries);
    }

    /** Wipes the live record with the key of `record`, if there is one. */
    method Wipe(record: Record)
      requires Valid()
      modifies this`linearIndex, this`linearLogicLength, this`entries, buckets
      ensures Valid()
      ensures MapOf(entries) == MapOf(old(entries)) - {record.key}
      ensures record.key !in MapOf(old(entries)) ==> entries == old(entries) && linearIndex == old(linearIndex)
      ensures record.key in MapOf(old(entries)) ==>
                LiveAt(old(entries), linearIndex, record.key) && entries == Wiped(old(entries), linearIndex)
    {
      hide MapOf, LiveCount, LinksOk, HeadsOk, Distinct, Hash, NextFrom;
      var found := Lookup(record.key);
      if !found { return; }
      MapWipe(entries, linearIndex);
      WipeCurrent();
    }

    /** Writes the live records in order. */
    method Save() returns (out: seq<byte>)
      requires Valid()
      ensures out == SaveBytes(Records(entries))
    {
      hide Chained, Distinct, RecordBytes, LE;
      MarkedLength();
      var body: seq<byte> := [];
      for i := 0 to linearLength
        invariant body == RecordsBytes(Records(entries[..i]))
      {
        assert entries[..i + 1][..i] == entries[..i];
        assert linear[i] == buckets[i] && entries[..i + 1][i] == entries[i];
        assert entries[i].deleted ==> Records(entries[..i + 1]) == Records(entries[..i]);
        if !linear[i].deleted {
          RecordsBytesAppend(Records(entries[..i]), linear[i].record);
          body := body + RecordBytes(linear[i].record);
        }
      }
      assert entries[..linearLength] == entries;
      MapHolds(entries);
      out := FILE_ID + (LE(linearLogicLength, 4) + body);
    }

    static lemma {:induction false} RecordsBytesAppend(rs: seq<Record>, r: Record)
      ensures RecordsBytes(rs + [r]) == RecordsBytes(rs) + RecordBytes(r)
    {
      hide RecordBytes;
      if rs == [] {
        assert RecordsBytes([r]) == RecordBytes(r) + RecordsBytes([]);
      } else {
        assert (rs + [r])[1..] == rs[1..] + [r];
        RecordsBytesAppend(rs[1..], r);
      }
    }

    /** Reads a file into the database; false if it does not begin as one.  Where it ends too soon,
        reading goes on with what is `missing`. */
    method Load(file: seq<byte>, missing: Missing) returns (ok: bool)
      requires Valid()
      modifies this, linear, hashed, buckets
      ensures Valid() && fresh(set b | b in buckets && b !in old(buckets))
      ensures ok <==> HasId(file)
      ensures entries == if ok then InsertAll(old(entries), Loaded(file, missing)) else old(entries)
    {
      hide Chained, Marked, Distinct, MapOf, LiveCount, InsertOne, ReadRecord;
      if |file| < |FILE_ID| || file[..|FILE_ID|] != FILE_ID {
        return false;
      }
      var head := ReadInt(file[|FILE_ID|..], 4);
      var length := if head == None then missing.count else head.value.0;
      var rest := if head == None then None else Some(head.value.1);
      var k := 0;
      ghost var es := entries;
      for i := 0 to length
        invariant Valid() && fresh(set b | b in buckets && b !in old(buckets))
        invariant InsertAll(entries, ReadOn(rest, k, length - i, missing)) == InsertAll(es, Loaded(file, missing))
      {
        var record := if rest == None then None else ReadRecord(rest.value);
        if record == None {
          var _ := Insert(missing.record(k));
          rest := None;
          k := k + 1;
        } else {
          var _ := Insert(record.value.0);
          rest := Some(record.value.1);
        }
      }
      ok := true;
    }

    // The chains

    /** A bucket's successor in its chain comes later in the linear list. */
    lemma NextIsLater(b: Bucket)
      requires Chained() && b in buckets
      ensures b.index < |buckets| && buckets[b.index] == b
      ensures b.chain != null ==> b.chain in buckets && b.chain.index > b.index
      ensures b.chain == At(buckets, NextFrom(keys, b.index + 1, Hash(keys[b.index])))
    {
      hide NextFrom, Hash;
    }

    /** The positions met by following the chain pointers from a bucket on, to the null at the end. */
    ghost function Walk(b: Bucket?): seq<nat>
      reads this`buckets, this`keys, this`links, hashed, buckets
      requires Chained() && (b != null ==> b in buckets)
      decreases if b == null then 0 else |buckets| - b.index + 1, 0
    {
      if b == null then []
      else
        NextIsLater(b);
        [b.index] + Walk(b.chain)
    }

    lemma {:induction false} WalkIsChain(i: nat, h: nat)
      requires Chained() && i <= |keys|
      ensures Walk(At(buckets, NextFrom(keys, i, h))) == Chain(keys, i, h)
      decreases |keys| - i
    {
      hide Hash, NextFrom, LinksOk, HeadsOk;
      var j := NextFrom(keys, i, h);
      if j < |keys| {
        NextIsLater(buckets[j]);
        WalkIsChain(j + 1, h);
      }
    }

    /** Following the pointers from a hash slot visits exactly the buckets with that hash, in the order
        they were inserted and each once, and then ends. */
    lemma WalkCovers(h: nat)
      requires Valid() && h < RADIX
      ensures hashed[h] != null ==> hashed[h] in buckets
      ensures forall i :: i in Walk(hashed[h]) <==> 0 <= i < |buckets| && Hash(buckets[i].record.key) == h
      ensures forall a, b :: 0 <= a < b < |Walk(hashed[h])| ==> Walk(hashed[h])[a] < Walk(hashed[h])[b]
    {
      hide Hash, NextFrom, Chain, Marked, Distinct, LiveCount;
      assert hashed[..][h] == hashed[h] == At(buckets, NextFrom(keys, 0, h));
      WalkIsChain(0, h);
      ChainCovers(keys, 0, h);
    }
  }
}
