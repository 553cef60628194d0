/** Whole runs over the database: what a sequence of searches, insertions and wipes answers and leaves,
    told on a finite map, and what is left of it after saving and loading (src/database.cpp). */
module DbRun {
  import opened Wrappers
  import opened Bits
  import opened DbSpec
  import opened DbFormat
  import opened Database

  /** The map, the places taken (those of wiped records too), and the key under the cursor, if live. */
  datatype Table = Table(live: map<Key, Record>, used: nat, current: Option<Key>)

  datatype Op = Search(key: Key) | Insert(record: Option<Record>) | Wipe(victim: Record) | WipeCurrent

  datatype Answer = Found(record: Option<Record>) | Inserted(ok: bool) | Done

  function TableOf(entries: seq<Entry>, cursor: nat): Table {
    Table(MapOf(entries), |entries|,
          if cursor < |entries| && !entries[cursor].deleted then Some(entries[cursor].record.key) else None)
  }

  const EMPTY := Table(map[], 0, None)

  function Apply(t: Table, op: Op): (Table, Answer) {
    match op
    case Search(key) =>
      if key in t.live then (t.(current := Some(key)), Found(Some(t.live[key]))) else (t, Found(None))
    case Insert(None) => (t, Inserted(false))
    case Insert(Some(r)) =>
      if t.used == RADIX then (t, Inserted(false))
      else if r.key in t.live then (t.(current := Some(r.key)), Inserted(false))
      else (Table(t.live[r.key := r], t.used + 1, if t.used == 0 then Some(r.key) else t.current), Inserted(true))
    case Wipe(r) =>
      if r.key in t.live then (t.(live := t.live - {r.key}, current := None), Done) else (t, Done)
    case WipeCurrent =>
      if t.current == None then (t, Done) else (t.(live := t.live - {t.current.value}, current := None), Done)
  }

  function ApplyAll(t: Table, ops: seq<Op>): (r: (Table, seq<Answer>))
    ensures |r.1| == |ops|
    decreases |ops|
  {
    if ops == [] then (t, [])
    else
      var (t', a) := Apply(t, ops[0]);
      var (t'', answers) := ApplyAll(t', ops[1..]);
      (t'', [a] + answers)
  }

  lemma {:induction false} ApplyAllThen(t: Table, ops: seq<Op>, op: Op)
    ensures ApplyAll(t, ops + [op]).0 == Apply(ApplyAll(t, ops).0, op).0
    ensures ApplyAll(t, ops + [op]).1 == ApplyAll(t, ops).1 + [Apply(ApplyAll(t, ops).0, op).1]
    decreases |ops|
  {
    hide Apply;
    if ops != [] {
      assert (ops + [op])[1..] == ops[1..] + [op];
      ApplyAllThen(Apply(t, ops[0]).0, ops[1..], op);
    } else {
      assert ops + [op] == [op] && [op][1..] == [];
    }
  }

  // Properties of the table

  function Successes(answers: seq<Answer>): nat {
    if answers == [] then 0 else (if answers[0] == Inserted(true) then 1 else 0) + Successes(answers[1..])
  }

  /** A wiped record keeps its place: every successful insertion takes one for good, and with none left
      no insertion succeeds, whatever has been wiped. */
  lemma {:induction false} PlacesAreNotFreed(t: Table, ops: seq<Op>)
    requires t.used <= RADIX
    ensures var (t', answers) := ApplyAll(t, ops);
            && t'.used == t.used + Successes(answers) <= RADIX
            && (t.used == RADIX ==> forall i :: 0 <= i < |answers| ==> answers[i] != Inserted(true))
    decreases |ops|
  {
    if ops != [] {
      PlacesAreNotFreed(Apply(t, ops[0]).0, ops[1..]);
    }
  }

  /** Two tables with the same live records answer alike, however many places are taken by wiped ones, as
      long as neither can run full and the cursor is not used. */
  lemma {:induction false} TombstonesDontMatter(t: Table, u: Table, ops: seq<Op>)
    requires t.live == u.live && t.used + |ops| <= RADIX && u.used + |ops| <= RADIX
    requires WipeCurrent !in ops
    ensures ApplyAll(t, ops).1 == ApplyAll(u, ops).1 && ApplyAll(t, ops).0.live == ApplyAll(u, ops).0.live
    decreases |ops|
  {
    if ops != [] {
      TombstonesDontMatter(Apply(t, ops[0]).0, Apply(u, ops[0]).0, ops[1..]);
    }
  }

  ghost predicate AllWellFormed(live: map<Key, Record>) {
    forall k :: k in live ==> WellFormed(live[k])
  }

  ghost predicate InsertsWellFormed(ops: seq<Op>) {
    forall i :: 0 <= i < |ops| && ops[i].Insert? && ops[i].record.Some? ==> WellFormed(ops[i].record.value)
  }

  lemma {:induction false} StaysWellFormed(t: Table, ops: seq<Op>)
    requires AllWellFormed(t.live) && InsertsWellFormed(ops)
    ensures AllWellFormed(ApplyAll(t, ops).0.live)
    decreases |ops|
  {
    hide WellFormed;
    if ops != [] {
      assert ops[0].Insert? && ops[0].record.Some? ==> WellFormed(ops[0].record.value);
      StaysWellFormed(Apply(t, ops[0]).0, ops[1..]);
    }
  }

  lemma {:induction false} NoneWiped(entries: seq<Entry>)
    requires forall i :: 0 <= i < |entries| ==> !entries[i].deleted
    ensures |Records(entries)| == |entries|
  {
    if entries != [] {
      NoneWiped(entries[..|entries| - 1]);
    }
  }

  /** Loading a saved file: whatever would be read behind its end, the live records come back. */
  lemma ReloadEntries(entries: seq<Entry>, missing: Missing)
    requires Distinct(entries) && |entries| <= RADIX && AllWellFormed(MapOf(entries))
    ensures HasId(SaveBytes(Records(entries)))
    ensures var loaded := InsertAll([], Loaded(SaveBytes(Records(entries)), missing));
            && Records(loaded) == Records(entries) && MapOf(loaded) == MapOf(entries)
            && |loaded| == |MapOf(entries)|
  {
    hide MapOf, Records, WellFormed, InsertAll, SaveBytes, ReadRecords, ReadOn, ReadInt;
    var file := SaveBytes(Records(entries));
    MapHolds(entries);
    forall i | 0 <= i < |entries| && !entries[i].deleted
      ensures WellFormed(entries[i].record)
    {
      assert LiveAt(entries, i, entries[i].record.key);
    }
    SaveLoad(entries);
    var (n, rest) := ReadInt(file[|FILE_ID|..], 4).value;
    ReadsComplete(rest, 0, n, missing);
    NoneWiped(InsertAll([], Loaded(file, missing)));
  }

  /** Wiping the entry under the cursor, on the table. */
  lemma WipeUnderCursor(entries: seq<Entry>, cursor: nat)
    requires Distinct(entries) && cursor < |entries|
    ensures TableOf(Wiped(entries, cursor), cursor) == Apply(TableOf(entries, cursor), WipeCurrent).0
  {
    hide MapOf, Distinct;
    if entries[cursor].deleted {
      assert Wiped(entries, cursor) == entries;
    } else {
      MapWipe(entries, cursor);
    }
  }

  // The class

  /** One operation on the database is that operation on its table. */
  method RunOp(db: Db, op: Op) returns (answer: Answer)
    requires db.Valid()
    modifies db, db.linear, db.hashed, db.buckets
    ensures db.Valid() && fresh(set b | b in db.buckets && b !in old(db.buckets))
    ensures (TableOf(db.entries, db.linearIndex), answer) == Apply(old(TableOf(db.entries, db.linearIndex)), op)
  {
    hide MapOf, LiveCount, Distinct, LinksOk, HeadsOk;
    match op {
      case Search(key) =>
        var record := db.Search(key);
        answer := Found(record);
      case Insert(record) =>
        var ok := db.Insert(record);
        answer := Inserted(ok);
      case Wipe(record) =>
        ghost var es := db.entries;
        db.Wipe(record);
        MapHolds(es);
        answer := Done;
      case WipeCurrent =>
        if db.linearLength > 0 {
          WipeUnderCursor(db.entries, db.linearIndex);
        }
        db.WipeCurrent();
        answer := Done;
    }
  }

  /** Any sequence of operations answers, and leaves, what it does on the table. */
  method RunOps(db: Db, ops: seq<Op>) returns (answers: seq<Answer>)
    requires db.Valid()
    modifies db, db.linear, db.hashed, db.buckets
    ensures db.Valid() && fresh(set b | b in db.buckets && b !in old(db.buckets))
    ensures (TableOf(db.entries, db.linearIndex), answers) == ApplyAll(old(TableOf(db.entries, db.linearIndex)), ops)
  {
    hide MapOf, LiveCount, Distinct, LinksOk, HeadsOk, Apply, TableOf;
    ghost var t := TableOf(db.entries, db.linearIndex);
    answers := [];
    for i := 0 to |ops|
      invariant db.Valid() && fresh(set b | b in db.buckets && b !in old(db.buckets))
      invariant (TableOf(db.entries, db.linearIndex), answers) == ApplyAll(t, ops[..i])
    {
      var answer := RunOp(db, ops[i]);
      ApplyAllThen(t, ops[..i], ops[i]);
      assert ops[..i + 1] == ops[..i] + [ops[i]];
      answers := answers + [answer];
    }
    assert ops[..|ops|] == ops;
  }

  /** Saving a database and loading the file into an empty one gives the same map. */
  method SaveThenLoad(db: Db, missing: Missing) returns (again: Db)
    requires db.Valid() && AllWellFormed(MapOf(db.entries))
    ensures again.Valid() && fresh(again) && fresh(again.linear) && fresh(again.hashed) && fresh(again.buckets)
    ensures MapOf(again.entries) == MapOf(db.entries) && Records(again.entries) == Records(db.entries)
    ensures |again.entries| == |MapOf(db.entries)|
  {
    hide MapOf;
    var file := db.Save();
    ReloadEntries(db.entries, missing);
    again := new Db();
    var ok := again.Load(file, missing);
  }

  /** From the empty database through any run, the file and back: the final map is there again. */
  method Session(ops: seq<Op>, missing: Missing) returns (answers: seq<Answer>, again: Db)
    requires InsertsWellFormed(ops)
    ensures again.Valid() && answers == ApplyAll(EMPTY, ops).1
    ensures MapOf(again.entries) == ApplyAll(EMPTY, ops).0.live
  {
    hide ApplyAll, WellFormed;
    var db := new Db();
    answers := RunOps(db, ops);
    StaysWellFormed(EMPTY, ops);
    again := SaveThenLoad(db, missing);
  }
}
