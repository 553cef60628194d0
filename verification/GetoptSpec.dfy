/** What a command line means: a plain left-to-right scan that never moves an argument.

    The option syntax is that of XBD section 12.2 of POSIX.1-2017, with the GNU extensions of
    optional option-arguments ("::") and of options that follow operands.  A C string is a
    `string` without NUL; the NUL that ends it is what `CharAt` returns past the end. */
module GetoptSpec {
  import opened Wrappers

  datatype ArgKind = Unknown | NoArg | RequiredArg | OptionalArg

  /** One option found: `opt` is the option character, `code` what the caller is given for it
      (the character itself, or '?' or ':' when `ok` is false) and `arg` its option-argument. */
  datatype Event = Event(opt: char, ok: bool, code: char, arg: Option<string>)

  function CharAt(s: string, k: nat): char {
    if k < |s| then s[k] else '\0'
  }

  /** The first position of `c` in `s`, or |s|. */
  function IndexOf(s: string, c: char): (k: nat)
    ensures k <= |s|
    ensures k < |s| ==> s[k] == c
    ensures forall j :: 0 <= j < k ==> s[j] != c
  {
    if s == "" then 0
    else if s[0] == c then 0
    else 1 + IndexOf(s[1..], c)
  }

  function KindOf(os: string, c: char): ArgKind {
    var k := IndexOf(os, c);
    if k == |os| || c == ':' then Unknown
    else if CharAt(os, k + 1) != ':' then NoArg
    else if CharAt(os, k + 2) != ':' then RequiredArg
    else OptionalArg
  }

  function MissingCode(os: string): char {
    if CharAt(os, 0) == ':' then ':' else '?'
  }

  /** Option strings that ask for permutation (neither '+' nor '-' first) and have no "W;",
      which getopt can only take with a table of long options. */
  predicate Permuting(os: string) {
    CharAt(os, 0) != '+' && CharAt(os, 0) != '-' && CharAt(os, IndexOf(os, 'W') + 1) != ';'
  }

  predicate IsOperand(s: string) {
    CharAt(s, 0) != '-' || |s| == 1
  }

  /** The option at the front of `rest`, the unread part of the option cluster at `args[i]`. */
  function HeadEvent(os: string, args: seq<string>, i: nat, rest: string): Event
    requires i < |args| && rest != ""
  {
    var c := rest[0];
    match KindOf(os, c)
    case Unknown => Event(c, false, '?', None)
    case NoArg => Event(c, true, c, None)
    case OptionalArg => Event(c, true, c, if |rest| > 1 then Some(rest[1..]) else None)
    case RequiredArg =>
      if |rest| > 1 then Event(c, true, c, Some(rest[1..]))
      else if i + 1 < |args| then Event(c, true, c, Some(args[i + 1]))
      else Event(c, false, MissingCode(os), None)
  }

  /** What is left of the cluster after that option: nothing when it takes an argument. */
  function NextRest(os: string, rest: string): (r: string)
    requires rest != ""
    ensures |r| < |rest|
  {
    if KindOf(os, rest[0]) in {Unknown, NoArg} then rest[1..] else ""
  }

  function ClusterEvents(os: string, args: seq<string>, i: nat, rest: string): seq<Event>
    requires i < |args|
    decreases |rest|
  {
    if rest == "" then []
    else [HeadEvent(os, args, i, rest)] + ClusterEvents(os, args, i, NextRest(os, rest))
  }

  /** Whether the unread cluster ends in an option that wants the next argument. */
  predicate WantsNext(os: string, rest: string)
    decreases |rest|
  {
    rest != "" &&
    if NextRest(os, rest) != "" then WantsNext(os, NextRest(os, rest))
    else KindOf(os, rest[0]) == RequiredArg && |rest| == 1
  }

  /** The argument at which the scan goes on after the cluster at `args[i]`. */
  function After(os: string, args: seq<string>, i: nat, rest: string): (j: nat)
    requires i < |args|
    ensures i < j <= |args|
  {
    if WantsNext(os, rest) && i + 1 < |args| then i + 2 else i + 1
  }

  function Events(os: string, args: seq<string>, i: nat): seq<Event>
    requires i <= |args|
    decreases |args| - i
  {
    if i == |args| || args[i] == "--" then []
    else if IsOperand(args[i]) then Events(os, args, i + 1)
    else
      ClusterEvents(os, args, i, args[i][1..]) + Events(os, args, After(os, args, i, args[i][1..]))
  }

  /** The options, each with its separate option-argument, and the "--" that ends them. */
  function Options(os: string, args: seq<string>, i: nat): seq<string>
    requires i <= |args|
    decreases |args| - i
  {
    if i == |args| then []
    else if args[i] == "--" then ["--"]
    else if IsOperand(args[i]) then Options(os, args, i + 1)
    else var j := After(os, args, i, args[i][1..]); args[i..j] + Options(os, args, j)
  }

  /** Everything else. */
  function Operands(os: string, args: seq<string>, i: nat): seq<string>
    requires i <= |args|
    decreases |args| - i
  {
    if i == |args| then []
    else if args[i] == "--" then args[i + 1..]
    else if IsOperand(args[i]) then [args[i]] + Operands(os, args, i + 1)
    else Operands(os, args, After(os, args, i, args[i][1..]))
  }

  // What is left of a scan that stands at `args[i]` with `rest` of its cluster unread
  // (an empty `rest` stands for "before args[i]").

  function PendingEvents(os: string, args: seq<string>, i: nat, rest: string): seq<Event>
    requires i <= |args| && (rest != "" ==> i < |args|)
  {
    if rest == "" then Events(os, args, i)
    else ClusterEvents(os, args, i, rest) + Events(os, args, After(os, args, i, rest))
  }

  function PendingOptions(os: string, args: seq<string>, i: nat, rest: string): seq<string>
    requires i <= |args| && (rest != "" ==> i < |args|)
  {
    if rest == "" then Options(os, args, i)
    else var j := After(os, args, i, rest); args[i..j] + Options(os, args, j)
  }

  function PendingOperands(os: string, args: seq<string>, i: nat, rest: string): seq<string>
    requires i <= |args| && (rest != "" ==> i < |args|)
  {
    if rest == "" then Operands(os, args, i)
    else Operands(os, args, After(os, args, i, rest))
  }

  /** The argument vector that a permuting scan from `start` must leave behind. */
  function Permuted(os: string, args: seq<string>, start: nat): seq<string>
    requires start <= |args|
  {
    args[..start] + Options(os, args, start) + Operands(os, args, start)
  }

  // One step of the split

  lemma SplitAtEnd(os: string, args: seq<string>, i: nat)
    requires i <= |args| && (i < |args| ==> args[i] == "--")
    ensures Options(os, args, i) + Operands(os, args, i) == args[i..]
  {
  }

  lemma SplitAtOperand(os: string, args: seq<string>, i: nat)
    requires i < |args| && IsOperand(args[i])
    ensures Options(os, args, i) == Options(os, args, i + 1)
    ensures Operands(os, args, i) == [args[i]] + Operands(os, args, i + 1)
  {
    hide After;
  }

  lemma SplitAtCluster(os: string, args: seq<string>, i: nat)
    requires i < |args| && args[i] != "--" && !IsOperand(args[i])
    ensures var j := After(os, args, i, args[i][1..]);
            Options(os, args, i) == args[i..j] + Options(os, args, j) && Operands(os, args, i) == Operands(os, args, j)
  {
    hide WantsNext;
  }

  /** A split of the rest, with `a` put in front of one part. */
  lemma PartsWithMore<T>(a: seq<T>, o: seq<T>, p: seq<T>, rest: seq<T>)
    requires multiset(o) + multiset(p) == multiset(rest)
    ensures multiset(a + o) + multiset(p) == multiset(a + rest)
    ensures multiset(o) + multiset(a + p) == multiset(a + rest)
  {
  }

  /** Nothing is lost, added or duplicated by the permutation. */
  lemma {:induction false} SplitIsPermutation(os: string, args: seq<string>, i: nat)
    requires i <= |args|
    ensures multiset(Options(os, args, i)) + multiset(Operands(os, args, i)) == multiset(args[i..])
    ensures |Options(os, args, i)| + |Operands(os, args, i)| == |args| - i
    decreases |args| - i
  {
    hide Options, Operands, WantsNext;
    if i == |args| || args[i] == "--" {
      SplitAtEnd(os, args, i);
    } else {
      var j := if IsOperand(args[i]) then i + 1 else After(os, args, i, args[i][1..]);
      if IsOperand(args[i]) {
        SplitAtOperand(os, args, i);
      } else {
        SplitAtCluster(os, args, i);
      }
      SplitIsPermutation(os, args, j);
      PartsWithMore(args[i..j], Options(os, args, j), Operands(os, args, j), args[j..]);
      assert args[i..i + 1] == [args[i]] && args[i..] == args[i..j] + args[j..];
    }
  }
}
