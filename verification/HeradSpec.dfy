/** The two packings of HERAD songs as one family of formats (src/herad.cpp): bits, taken from
    16-bit words that lie scattered among the literal bytes, select how the next bytes are read. */
module HeradSpec {
  import opened Wrappers
  import opened Bits
  import opened Machine
  import opened Lz

  datatype Mode = Literal | Near | Far

  /** A first bit equal to `first` selects `mode0`; otherwise a second bit selects `mode1` (0) or
      `mode2` (1).  `countBits` is the width of the count in a far copy. */
  datatype Format = Format(first: bool, mode0: Mode, mode1: Mode, mode2: Mode, countBits: nat)

  const HSQ: Format := Format(true, Literal, Near, Far, 3)

  function ModeOf(flag: byte): Mode {
    if flag == 0 then Literal else if flag == 1 then Near else Far
  }

  /** isSQX, which the caller has checked. */
  predicate IsSqx(data: seq<byte>) {
    |data| >= 6 && data[2] <= 2 && data[3] <= 2 && data[4] <= 2 && 1 <= data[5] <= 15
  }

  function Sqx(data: seq<byte>): Format
    requires |data| >= 6
  {
    Format(false, ModeOf(data[2]), ModeOf(data[3]), ModeOf(data[4]), data[5])
  }

  predicate FormatOk(f: Format) {
    1 <= f.countBits <= 15
  }

  /** `bits` are those fetched but not used; `pos` is where the next byte or word is fetched. */
  datatype State = State(bits: seq<bool>, pos: nat, out: seq<byte>)

  /** OutOfBounds: the original leaves one of its buffers here. */
  datatype Outcome = Done(out: seq<byte>) | OutOfBounds

  datatype Step = Go(s: State) | Stop(o: Outcome)

  function Room(data: seq<byte>, s: State): nat {
    (if s.pos < |data| then 16 * (|data| - s.pos) else 0) + |s.bits|
  }

  /** One bit; a word is fetched only when it is needed. */
  function GetBit(data: seq<byte>, s: State): (r: Option<(bool, State)>)
    ensures r.Some? ==> Room(data, r.value.1) < Room(data, s) && r.value.1.out == s.out
  {
    if s.bits != [] then Some((s.bits[0], s.(bits := s.bits[1..])))
    else if s.pos + 2 > |data| then None
    else
      var w := ToBits(U16(data, s.pos), 16);
      Some((w[0], s.(bits := w[1..], pos := s.pos + 2)))
  }

  function Copy(s: State, back: nat, count: nat, cap: nat): (x: Step)
    ensures x.Go? ==> x.s.bits == s.bits && x.s.pos == s.pos
  {
    if back == 0 || back > |s.out| || |s.out| + count > cap then Stop(OutOfBounds)
    else Go(s.(out := Copied(s.out, back, count)))
  }

  function GetLiteral(data: seq<byte>, s: State, cap: nat): (x: Step)
    ensures x.Go? ==> Room(data, x.s) <= Room(data, s)
  {
    if s.pos >= |data| || |s.out| >= cap then Stop(OutOfBounds)
    else Go(s.(pos := s.pos + 1, out := s.out + [data[s.pos]]))
  }

  /** A count of two bits, high bit first, and an offset of one byte. */
  function GetNear(data: seq<byte>, s: State, cap: nat): (x: Step)
    ensures x.Go? ==> Room(data, x.s) <= Room(data, s)
  {
    match GetBit(data, s)
    case None => Stop(OutOfBounds)
    case Some((hi, s1)) =>
      match GetBit(data, s1)
      case None => Stop(OutOfBounds)
      case Some((lo, s2)) =>
        if s2.pos >= |data| then Stop(OutOfBounds)
        else
          var count := (if hi then 2 else 0) + (if lo then 1 else 0) + 2;
          Copy(s2.(pos := s2.pos + 1), 0x100 - (data[s2.pos] as int), count, cap)
  }

  /** A word of count and offset; a zero count is followed by a count byte, and a zero count byte
      ends the data. */
  function GetFar(data: seq<byte>, s: State, countBits: nat, cap: nat): (x: Step)
    requires countBits <= 16
    ensures x.Go? ==> Room(data, x.s) <= Room(data, s)
  {
    if s.pos + 2 > |data| then Stop(OutOfBounds)
    else
      var w := U16(data, s.pos);
      var back := BackOf(w, countBits);
      var count := w % Pow2(countBits);
      if count != 0 then Copy(s.(pos := s.pos + 2), back, count + 2, cap)
      else if s.pos + 2 >= |data| then Stop(OutOfBounds)
      else if data[s.pos + 2] == 0 then Stop(Done(s.out))
      else Copy(s.(pos := s.pos + 3), back, (data[s.pos + 2] as int) + 2, cap)
  }

  /** The distance in a far copy: the bits above the count, less than a power of two. */
  function BackOf(w: nat, countBits: nat): (back: nat)
    requires countBits <= 16 && w < 0x1_0000
    ensures 1 <= back <= Pow2(16 - countBits)
  {
    BackBound(w, countBits);
    Pow2(16 - countBits) - w / Pow2(countBits)
  }

  lemma QuotientBelow(w: nat, p: nat, q: nat)
    requires p > 0 && w < p * q
    ensures w / p < q
  {
  }

  lemma BackBound(w: nat, countBits: nat)
    requires countBits <= 16 && w < 0x1_0000
    ensures 0 <= w / Pow2(countBits) < Pow2(16 - countBits)
  {
    PowersOfTwo(16);
    PowSplit(countBits, 16 - countBits);
    hide Pow2;
    var p, q := Pow2(countBits), Pow2(16 - countBits);
    QuotientBelow(w, p, q);
  }

  function Get(data: seq<byte>, f: Format, s: State, mode: Mode, cap: nat): (x: Step)
    requires FormatOk(f)
    ensures x.Go? ==> Room(data, x.s) <= Room(data, s)
  {
    match mode
    case Literal => GetLiteral(data, s, cap)
    case Near => GetNear(data, s, cap)
    case Far => GetFar(data, s, f.countBits, cap)
  }

  function Decode(data: seq<byte>, f: Format, s: State, cap: nat): (x: Step)
    requires FormatOk(f)
    ensures x.Go? ==> Room(data, x.s) < Room(data, s)
  {
    match GetBit(data, s)
    case None => Stop(OutOfBounds)
    case Some((b, s1)) =>
      if b == f.first then Get(data, f, s1, f.mode0, cap)
      else
        match GetBit(data, s1)
        case None => Stop(OutOfBounds)
        case Some((b', s2)) => Get(data, f, s2, if b' then f.mode2 else f.mode1, cap)
  }

  function Run(data: seq<byte>, f: Format, s: State, cap: nat): Outcome
    requires FormatOk(f)
    decreases Room(data, s)
  {
    match Decode(data, f, s, cap)
    case Stop(o) => o
    case Go(s') => Run(data, f, s', cap)
  }

  /** The whole file: a header of six bytes comes first. */
  function Unpacked(data: seq<byte>, f: Format, cap: nat): Outcome
    requires FormatOk(f)
  {
    Run(data, f, State([], 6, []), cap)
  }
}
