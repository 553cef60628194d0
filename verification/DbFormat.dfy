/** The database file: how records are written, and what is read back (src/database.cpp). */
module DbFormat {
  import opened Wrappers
  import opened Bits
  import opened DbSpec

  /** `v` in `n` bytes, low byte first; higher bytes are cut off. */
  function LE(v: nat, n: nat): (s: seq<byte>)
    ensures |s| == n
  {
    if n == 0 then [] else [v % 256] + LE(v / 256, n - 1)
  }

  function UnLE(s: seq<byte>): nat {
    if s == [] then 0 else s[0] + 256 * UnLE(s[1..])
  }

  function Cap(n: nat): nat {
    Pow2(8 * n)
  }

  lemma CapStep(v: nat, n: nat)
    requires n > 0 && v < Cap(n)
    ensures v / 256 < Cap(n - 1)
  {
    hide Pow2;
    PowersOfTwo(0);
    PowSplit(8, 8 * (n - 1));
  }

  lemma Caps()
    ensures Cap(2) == 0x1_0000 && Cap(4) == 0x1_0000_0000
  {
    PowersOfTwo(0);
  }

  lemma {:induction false} LERoundTrip(v: nat, n: nat)
    requires v < Cap(n)
    ensures UnLE(LE(v, n)) == v
  {
    if n > 0 {
      CapStep(v, n);
      LERoundTrip(v / 256, n - 1);
      assert LE(v, n)[1..] == LE(v / 256, n - 1);
    }
  }

  // Readers: a value and the bytes behind it, or None where the file is too short

  function ReadInt(s: seq<byte>, n: nat): Option<(nat, seq<byte>)> {
    if |s| < n then None else Some((UnLE(s[..n]), s[n..]))
  }

  function ReadString(s: seq<byte>): Option<(seq<byte>, seq<byte>)> {
    if s == [] then None
    else if s[0] == 0 then Some(([], s[1..]))
    else
      match ReadString(s[1..])
      case None => None
      case Some((str, rest)) => Some(([s[0]] + str, rest))
  }

  predicate NulFree(s: seq<byte>) {
    forall k :: 0 <= k < |s| ==> s[k] != 0
  }

  predicate WellFormed(r: Record) {
    && r.key.crc16 < 0x1_0000 && r.key.crc32 < 0x1_0000_0000
    && NulFree(r.filetype) && NulFree(r.comment)
    && (r.body.SongInfo? ==> NulFree(r.body.title) && NulFree(r.body.author))
    && (r.body.ClockSpeed? ==> |r.body.clock| == 4)
  }

  function TypeOf(b: Body): byte {
    match b
    case Plain => 0
    case SongInfo(_, _) => 1
    case ClockSpeed(_) => 2
  }

  /** get_size: the length of the part that depends on the type. */
  function BodySize(b: Body): nat {
    match b
    case Plain => 0
    case SongInfo(title, author) => |title| + |author| + 2
    case ClockSpeed(_) => 4
  }

  function BodyBytes(b: Body): seq<byte> {
    match b
    case Plain => []
    case SongInfo(title, author) => title + [0] + (author + [0])
    case ClockSpeed(clock) => clock
  }

  /** A record without its type and size. */
  function Content(r: Record): seq<byte> {
    LE(r.key.crc16, 2) + (LE(r.key.crc32, 4) + (r.filetype + [0] + (r.comment + [0] + BodyBytes(r.body))))
  }

  function SizeField(r: Record): nat {
    BodySize(r.body) + |r.filetype| + |r.comment| + 8
  }

  function RecordBytes(r: Record): seq<byte> {
    [TypeOf(r.body)] + (LE(SizeField(r), 4) + Content(r))
  }

  function ReadBody(t: nat, s: seq<byte>): Option<(Body, seq<byte>)> {
    if t == 0 then Some((Plain, s))
    else if t == 1 then
      match ReadString(s)
      case None => None
      case Some((title, s1)) =>
        match ReadString(s1)
        case None => None
        case Some((author, s2)) => Some((SongInfo(title, author), s2))
    else if |s| < 4 then None else Some((ClockSpeed(s[..4]), s[4..]))
  }

  function ReadContent(t: nat, s: seq<byte>): Option<(Record, seq<byte>)> {
    match ReadInt(s, 2)
    case None => None
    case Some((crc16, s1)) =>
      match ReadInt(s1, 4)
      case None => None
      case Some((crc32, s2)) =>
        match ReadString(s2)
        case None => None
        case Some((filetype, s3)) =>
          match ReadString(s3)
          case None => None
          case Some((comment, s4)) =>
            match ReadBody(t, s4)
            case None => None
            case Some((body, s5)) => Some((Record(Key(crc16, crc32), filetype, comment, body), s5))
  }

  /** CRecord::factory: one record, or no record where the type is unknown and is skipped. */
  function ReadRecord(s: seq<byte>): Option<(Option<Record>, seq<byte>)> {
    match ReadInt(s, 1)
    case None => None
    case Some((t, s1)) =>
      match ReadInt(s1, 4)
      case None => None
      case Some((size, s2)) =>
        if t > 2 then (if size > |s2| then None else Some((None, s2[size..])))
        else
          match ReadContent(t, s2)
          case None => None
          case Some((r, s3)) => Some((Some(r), s3))
  }

  function ReadRecords(s: seq<byte>, n: nat): Option<seq<Option<Record>>>
    decreases n
  {
    if n == 0 then Some([])
    else
      match ReadRecord(s)
      case None => None
      case Some((r, rest)) =>
        match ReadRecords(rest, n - 1)
        case None => None
        case Some(rs) => Some([r] + rs)
  }

  /** DB_FILEID_V10, in bytes. */
  const FILE_ID: seq<byte> := [
    65, 100, 80, 108, 117, 103, 32, 77, 111, 100, 117, 108, 101, 32, 73, 110, 102, 111, 114, 109,
    97, 116, 105, 111, 110, 32, 68, 97, 116, 97, 98, 97, 115, 101, 32, 49, 46, 48, 16]

  function RecordsBytes(rs: seq<Record>): seq<byte> {
    if rs == [] then [] else RecordBytes(rs[0]) + RecordsBytes(rs[1..])
  }

  function SaveBytes(rs: seq<Record>): seq<byte> {
    FILE_ID + (LE(|rs|, 4) + RecordsBytes(rs))
  }

  function ReadFile(s: seq<byte>): Option<seq<Option<Record>>> {
    if |s| < |FILE_ID| || s[..|FILE_ID|] != FILE_ID then None
    else
      match ReadInt(s[|FILE_ID|..], 4)
      case None => None
      case Some((n, rest)) => ReadRecords(rest, n)
  }

  /** What the stream gives where the input has ended: a count of records, and the records made of
      what is not there.  That is up to the stream library. */
  datatype Missing = Missing(count: nat, record: nat -> Option<Record>)

  /** `n` records, of which the file may hold only the first; `k` of them have been made up so far. */
  function ReadOn(s: Option<seq<byte>>, k: nat, n: nat, missing: Missing): (rs: seq<Option<Record>>)
    ensures |rs| == n
    decreases n
  {
    if n == 0 then []
    else if s.Some? && ReadRecord(s.value).Some? then
      var (r, rest) := ReadRecord(s.value).value;
      [r] + ReadOn(Some(rest), k, n - 1, missing)
    else [missing.record(k)] + ReadOn(None, k + 1, n - 1, missing)
  }

  predicate HasId(s: seq<byte>) {
    |s| >= |FILE_ID| && s[..|FILE_ID|] == FILE_ID
  }

  /** What is read from any file that begins as it should. */
  function Loaded(s: seq<byte>, missing: Missing): seq<Option<Record>>
    requires HasId(s)
  {
    match ReadInt(s[|FILE_ID|..], 4)
    case None => ReadOn(None, 0, missing.count, missing)
    case Some((n, rest)) => ReadOn(Some(rest), 0, n, missing)
  }

  /** The records in front of the place where the file ends. */
  function Complete(s: seq<byte>, n: nat): (rs: seq<Option<Record>>)
    ensures |rs| <= n
    decreases n
  {
    if n == 0 || ReadRecord(s) == None then []
    else
      var (r, rest) := ReadRecord(s).value;
      [r] + Complete(rest, n - 1)
  }

  /** A file that ends too soon still gives its complete records, first and in order; a whole one gives
      nothing else. */
  lemma {:induction false} ReadsComplete(s: seq<byte>, k: nat, n: nat, missing: Missing)
    ensures Complete(s, n) <= ReadOn(Some(s), k, n, missing)
    ensures ReadRecords(s, n).Some? <==> |Complete(s, n)| == n
    ensures ReadRecords(s, n).Some? ==> ReadRecords(s, n).value == Complete(s, n) == ReadOn(Some(s), k, n, missing)
    decreases n
  {
    hide ReadRecord;
    if n > 0 && ReadRecord(s).Some? {
      ReadsComplete(ReadRecord(s).value.1, k, n - 1, missing);
    }
  }

  // Reading back what was written

  lemma ReadBackInt(v: nat, n: nat, rest: seq<byte>)
    requires v < Cap(n)
    ensures ReadInt(LE(v, n) + rest, n) == Some((v, rest))
  {
    LERoundTrip(v, n);
    assert (LE(v, n) + rest)[..n] == LE(v, n);
  }

  lemma {:induction false} ReadBackString(str: seq<byte>, rest: seq<byte>)
    requires NulFree(str)
    ensures ReadString(str + [0] + rest) == Some((str, rest))
  {
    var s := str + [0] + rest;
    if str == [] {
      assert s[1..] == rest;
    } else {
      assert s[1..] == str[1..] + [0] + rest;
      ReadBackString(str[1..], rest);
      assert str == [str[0]] + str[1..];
    }
  }

  lemma ReadBackBody(b: Body, rest: seq<byte>)
    requires b.SongInfo? ==> NulFree(b.title) && NulFree(b.author)
    requires b.ClockSpeed? ==> |b.clock| == 4
    ensures ReadBody(TypeOf(b), BodyBytes(b) + rest) == Some((b, rest))
    ensures |BodyBytes(b)| == BodySize(b)
  {
    match b
    case Plain => assert [] + rest == rest;
    case SongInfo(title, author) =>
      assert BodyBytes(b) + rest == title + [0] + (author + [0] + rest);
      ReadBackString(title, author + [0] + rest);
      ReadBackString(author, rest);
    case ClockSpeed(clock) =>
  }

  lemma ReadBackContent(r: Record, rest: seq<byte>)
    requires WellFormed(r)
    ensures ReadContent(TypeOf(r.body), Content(r) + rest) == Some((r, rest))
    ensures |Content(r)| == SizeField(r)
  {
    hide LE, ReadInt, ReadString, ReadBody, Cap;
    var s4 := BodyBytes(r.body) + rest;
    var s3 := r.comment + [0] + s4;
    var s2 := r.filetype + [0] + s3;
    var s1 := LE(r.key.crc32, 4) + s2;
    assert Content(r) + rest == LE(r.key.crc16, 2) + s1;
    Caps();
    ReadBackInt(r.key.crc16, 2, s1);
    ReadBackInt(r.key.crc32, 4, s2);
    ReadBackString(r.filetype, s3);
    ReadBackString(r.comment, s4);
    ReadBackBody(r.body, rest);
  }

  /** A record reads back; the size written is the length of what follows it, so that a reader
      who does not know its type skips exactly this record. */
  lemma ReadBackRecord(r: Record, rest: seq<byte>)
    requires WellFormed(r)
    ensures ReadRecord(RecordBytes(r) + rest) == Some((Some(r), rest))
    ensures SizeField(r) < Cap(4) ==> forall t: byte :: t > 2 ==>
              ReadRecord([t] + RecordBytes(r)[1..] + rest) == Some((None, rest))
  {
    hide LE, Content, ReadContent, Cap;
    ReadBackContent(r, rest);
    var s1 := LE(SizeField(r), 4) + (Content(r) + rest);
    assert RecordBytes(r) + rest == [TypeOf(r.body)] + s1;
    OneByte(TypeOf(r.body), s1);
    assert s1[4..] == Content(r) + rest;
    if SizeField(r) < Cap(4) {
      ReadBackInt(SizeField(r), 4, Content(r) + rest);
      forall t: byte | t > 2
        ensures ReadRecord([t] + RecordBytes(r)[1..] + rest) == Some((None, rest))
      {
        assert [t] + RecordBytes(r)[1..] + rest == [t] + s1;
        OneByte(t, s1);
        assert (Content(r) + rest)[SizeField(r)..] == rest;
      }
    }
  }

  lemma OneByte(b: byte, rest: seq<byte>)
    ensures ReadInt([b] + rest, 1) == Some((b as nat, rest))
  {
    assert ([b] + rest)[..1] == [b] && [b][1..] == [] && ([b] + rest)[1..] == rest;
    assert UnLE([b]) == b + 256 * UnLE([]) == b;
  }

  function Known(rs: seq<Record>): (k: seq<Option<Record>>)
    ensures |k| == |rs| && forall i :: 0 <= i < |rs| ==> k[i] == Some(rs[i])
  {
    seq(|rs|, i requires 0 <= i < |rs| => Some(rs[i]))
  }

  lemma {:induction false} ReadBackRecords(rs: seq<Record>)
    requires forall i :: 0 <= i < |rs| ==> WellFormed(rs[i])
    ensures ReadRecords(RecordsBytes(rs), |rs|) == Some(Known(rs))
  {
    hide ReadRecord, RecordBytes, WellFormed;
    if rs != [] {
      ReadBackRecord(rs[0], RecordsBytes(rs[1..]));
      ReadBackRecords(rs[1..]);
      assert Known(rs) == [Some(rs[0])] + Known(rs[1..]);
    }
  }

  lemma ReadBackFile(rs: seq<Record>)
    requires |rs| < 0x1_0000_0000 && forall i :: 0 <= i < |rs| ==> WellFormed(rs[i])
    ensures ReadFile(SaveBytes(rs)) == Some(Known(rs))
  {
    var rest := LE(|rs|, 4) + RecordsBytes(rs);
    assert SaveBytes(rs)[..|FILE_ID|] == FILE_ID && SaveBytes(rs)[|FILE_ID|..] == rest;
    Caps();
    hide Cap;
    ReadBackInt(|rs|, 4, RecordsBytes(rs));
    ReadBackRecords(rs);
  }

  /** The bytes of a record: its type, the size of what follows, both checksums, and the strings, each ended by
      a zero, low byte first throughout. */
  lemma RecordLayout(r: Record)
    requires r.body.ClockSpeed? ==> |r.body.clock| == 4
    ensures var b, size, c16, c32 := RecordBytes(r), |RecordBytes(r)| - 5, r.key.crc16, r.key.crc32;
            && |b| >= 13 && size == SizeField(r)
            && b[0] == (match r.body case Plain => 0 case SongInfo(_, _) => 1 case ClockSpeed(_) => 2)
            && b[1..5] == [size % 256, size / 256 % 256, size / 256 / 256 % 256, size / 256 / 256 / 256 % 256]
            && b[5..7] == [c16 % 256, c16 / 256 % 256]
            && b[7..11] == [c32 % 256, c32 / 256 % 256, c32 / 256 / 256 % 256, c32 / 256 / 256 / 256 % 256]
            && b[11..] == r.filetype + [0] + r.comment + [0] +
                 match r.body
                 case Plain => []
                 case SongInfo(title, author) => title + [0] + author + [0]
                 case ClockSpeed(clock) => clock
  {
    hide SizeField, BodyBytes;
    ContentSize(r);
    var size, c := SizeField(r), Content(r);
    FourBytes(size);
    FourBytes(r.key.crc32);
    TwoBytes(r.key.crc16);
    var strings := r.filetype + [0] + (r.comment + [0] + BodyBytes(r.body));
    assert c == LE(r.key.crc16, 2) + (LE(r.key.crc32, 4) + strings);
    assert c[..2] == LE(r.key.crc16, 2) && c[2..6] == LE(r.key.crc32, 4) && c[6..] == strings;
    var b := RecordBytes(r);
    assert b == [TypeOf(r.body)] + (LE(size, 4) + c);
    assert b[1..5] == LE(size, 4) && b[5..7] == c[..2] && b[7..11] == c[2..6] && b[11..] == c[6..];
    BodyIs(r.body);
    assert strings == r.filetype + [0] + r.comment + [0] + BodyBytes(r.body);
  }

  lemma ContentSize(r: Record)
    requires r.body.ClockSpeed? ==> |r.body.clock| == 4
    ensures |Content(r)| == SizeField(r) >= 8
  {
    hide LE;
  }

  lemma BodyIs(b: Body)
    ensures BodyBytes(b) == match b
                            case Plain => []
                            case SongInfo(title, author) => title + [0] + author + [0]
                            case ClockSpeed(clock) => clock
  {
  }

  lemma TwoBytes(v: nat)
    ensures LE(v, 2) == [v % 256, v / 256 % 256]
  {
    assert LE(v / 256, 1) == [v / 256 % 256] + LE(v / 256 / 256, 0);
  }

  lemma FourBytes(v: nat)
    ensures LE(v, 4) == [v % 256, v / 256 % 256, v / 256 / 256 % 256, v / 256 / 256 / 256 % 256]
  {
    TwoBytes(v / 256 / 256);
    assert LE(v, 4) == [v % 256] + LE(v / 256, 3) && LE(v / 256, 3) == [v / 256 % 256] + LE(v / 256 / 256, 2);
  }

  /** A file begins with its name and a control character. */
  lemma FileIdIs()
    ensures var name := "AdPlug Module Information Database 1.0";
            |FILE_ID| == |name| + 1 && FILE_ID[|name|] == 0x10 && forall i :: 0 <= i < |name| ==> FILE_ID[i] == name[i] as int
  {
  }

  // Loading

  /** insert: a record joins unless the database is full or its key is live already. */
  function InsertOne(entries: seq<Entry>, r: Option<Record>): seq<Entry> {
    if r == None || |entries| == RADIX || r.value.key in MapOf(entries) then entries
    else entries + [Entry(r.value, false)]
  }

  function InsertAll(entries: seq<Entry>, rs: seq<Option<Record>>): seq<Entry>
    decreases |rs|
  {
    if rs == [] then entries else InsertAll(InsertOne(entries, rs[0]), rs[1..])
  }

  /** Records read later only add to what is there. */
  lemma {:induction false} InsertAllExtends(entries: seq<Entry>, rs: seq<Option<Record>>, more: seq<Option<Record>>)
    ensures InsertAll(entries, rs + more) == InsertAll(InsertAll(entries, rs), more)
    ensures entries <= InsertAll(entries, rs) <= InsertAll(entries, rs + more)
    decreases |rs|
  {
    hide InsertOne;
    if rs == [] {
      assert rs + more == more;
      InsertAllAdds(entries, more);
    } else {
      assert (rs + more)[1..] == rs[1..] + more;
      InsertOneAdds(entries, rs[0]);
      InsertAllExtends(InsertOne(entries, rs[0]), rs[1..], more);
    }
  }

  lemma {:induction false} InsertAllAdds(entries: seq<Entry>, rs: seq<Option<Record>>)
    ensures entries <= InsertAll(entries, rs)
    decreases |rs|
  {
    hide InsertOne;
    if rs != [] {
      InsertOneAdds(entries, rs[0]);
      InsertAllAdds(InsertOne(entries, rs[0]), rs[1..]);
    }
  }

  lemma InsertOneAdds(entries: seq<Entry>, r: Option<Record>)
    ensures entries <= InsertOne(entries, r)
  {
  }

  ghost predicate AllDiffer(rs: seq<Record>) {
    forall i, j :: 0 <= i < j < |rs| ==> rs[i].key != rs[j].key
  }

  ghost predicate HasRecord(entries: seq<Entry>, r: Record) {
    exists i :: LiveAt(entries, i, r.key) && entries[i].record == r
  }

  lemma {:induction false} RecordsLive(entries: seq<Entry>)
    ensures forall r :: r in Records(entries) ==> HasRecord(entries, r)
  {
    if entries != [] {
      var n := |entries| - 1;
      var pre := entries[..n];
      RecordsLive(pre);
      forall r | r in Records(entries)
        ensures HasRecord(entries, r)
      {
        if r in Records(pre) {
          var i :| LiveAt(pre, i, r.key) && pre[i].record == r;
          assert LiveAt(entries, i, r.key);
        } else {
          assert LiveAt(entries, n, r.key);
        }
      }
    }
  }

  lemma {:induction false} RecordsDiffer(entries: seq<Entry>)
    requires Distinct(entries)
    ensures AllDiffer(Records(entries)) && |Records(entries)| <= |entries|
  {
    if entries != [] {
      var n := |entries| - 1;
      var pre, rs := entries[..n], Records(entries);
      RecordsDiffer(pre);
      RecordsLive(pre);
      forall i, j | 0 <= i < j < |rs|
        ensures rs[i].key != rs[j].key
      {
        assert rs[i] == Records(pre)[i] && rs[i] in Records(pre);
        var k :| LiveAt(pre, k, rs[i].key) && pre[k].record == rs[i];
        assert entries[k] == pre[k];
        assert j < |Records(pre)| ==> rs[j] == Records(pre)[j];
      }
    }
  }

  function Live(rs: seq<Record>): (es: seq<Entry>)
    ensures |es| == |rs| && forall i :: 0 <= i < |rs| ==> es[i] == Entry(rs[i], false)
  {
    seq(|rs|, i requires 0 <= i < |rs| => Entry(rs[i], false))
  }

  lemma NotYetIn(rs: seq<Record>, n: nat)
    requires AllDiffer(rs) && n < |rs|
    ensures rs[n].key !in MapOf(Live(rs[..n]))
  {
    hide MapOf;
    var es := Live(rs[..n]);
    MapHolds(es);
    assert forall i, k :: LiveAt(es, i, k) ==> k == rs[i].key;
  }

  /** Records with different keys are all taken, in order. */
  lemma {:induction false} AllTaken(rs: seq<Record>, n: nat)
    requires AllDiffer(rs) && n <= |rs| <= RADIX
    ensures InsertAll(Live(rs[..n]), Known(rs[n..])) == Live(rs)
    decreases |rs| - n
  {
    if n == |rs| {
      assert rs[..n] == rs;
    } else {
      hide MapOf, AllDiffer;
      var es := Live(rs[..n]);
      NotYetIn(rs, n);
      assert es + [Entry(rs[n], false)] == Live(rs[..n + 1]);
      assert Known(rs[n..])[1..] == Known(rs[n + 1..]);
      AllTaken(rs, n + 1);
    }
  }

  lemma {:induction false} LiveRecords(rs: seq<Record>)
    ensures Records(Live(rs)) == rs
  {
    if rs != [] {
      var n := |rs| - 1;
      assert Live(rs)[..n] == Live(rs[..n]);
      LiveRecords(rs[..n]);
      assert rs == rs[..n] + [rs[n]];
    }
  }

  lemma {:induction false} MapOfRecords(entries: seq<Entry>)
    ensures MapOf(Live(Records(entries))) == MapOf(entries)
  {
    if entries != [] {
      var n := |entries| - 1;
      MapOfRecords(entries[..n]);
      var rs, pre := Records(entries), Records(entries[..n]);
      assert entries[n].deleted ==> rs == pre;
      assert !entries[n].deleted ==> Live(rs)[..|pre|] == Live(pre);
    }
  }

  /** Saving a database and loading it into an empty one gives the live records back, in order;
      only the tombstones are gone. */
  lemma SaveLoad(entries: seq<Entry>)
    requires Distinct(entries) && |entries| <= RADIX
    requires forall i :: 0 <= i < |entries| && !entries[i].deleted ==> WellFormed(entries[i].record)
    ensures ReadFile(SaveBytes(Records(entries))).Some?
    ensures var loaded := InsertAll([], ReadFile(SaveBytes(Records(entries))).value);
            && (forall i :: 0 <= i < |loaded| ==> !loaded[i].deleted)
            && Records(loaded) == Records(entries)
            && MapOf(loaded) == MapOf(entries)
  {
    var rs := Records(entries);
    RecordsLive(entries);
    RecordsDiffer(entries);
    forall k | 0 <= k < |rs|
      ensures WellFormed(rs[k])
    {
      assert rs[k] in rs;
    }
    ReadBackFile(rs);
    assert rs[..0] == [] && rs[0..] == rs && Live([]) == [];
    AllTaken(rs, 0);
    LiveRecords(rs);
    MapOfRecords(entries);
  }
}
