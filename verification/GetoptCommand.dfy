/** Command lines, written down from what they say: that the plain scan of GetoptSpec finds it in them
    again (adplugdb/getopt.c). */
module GetoptCommand {
  import opened Wrappers
  import opened GetoptSpec

  /** What may end a group of options: an optional argument left out, an argument in the same word, or one
      in the next. */
  datatype Tail = Nothing | Bare(c: char) | Joined(c: char, arg: string) | Separate(c: char, arg: string)

  datatype Item = Group(flags: string, tail: Tail) | Operand(word: string)

  // How they are declared

  /** An option is declared by its character in the option string, and one or two colons behind it give it
      a required or an optional argument. */
  lemma KindsDeclared(before: string, c: char, rest: string)
    requires c != ':' && c !in before && CharAt(rest, 0) != ':'
    ensures KindOf(before + [c] + rest, c) == NoArg
    ensures KindOf(before + [c] + ":" + rest, c) == RequiredArg
    ensures KindOf(before + [c] + "::" + rest, c) == OptionalArg
    ensures c !in rest ==> KindOf(before + rest, c) == Unknown
  {
    FoundAt(before, c, rest);
    FoundAt(before, c, ":" + rest);
    FoundAt(before, c, "::" + rest);
    assert before + [c] + (":" + rest) == before + [c] + ":" + rest;
    assert before + [c] + ("::" + rest) == before + [c] + "::" + rest;
  }

  lemma FoundAt(before: string, c: char, rest: string)
    requires c !in before
    ensures IndexOf(before + [c] + rest, c) == |before|
  {
    var s := before + [c] + rest;
    assert s[|before|] == c;
    assert forall j :: 0 <= j < |before| ==> s[j] == before[j];
  }

  predicate Flag(os: string, c: char) {
    KindOf(os, c) == NoArg || KindOf(os, c) == Unknown
  }

  predicate TailFits(os: string, tail: Tail) {
    match tail
    case Nothing => true
    case Bare(c) => KindOf(os, c) == OptionalArg
    case Joined(c, arg) => arg != "" && (KindOf(os, c) == OptionalArg || KindOf(os, c) == RequiredArg)
    case Separate(c, _) => KindOf(os, c) == RequiredArg
  }

  predicate Fits(os: string, item: Item) {
    match item
    case Operand(word) => word == "" || word == "-" || word[0] != '-'
    case Group(flags, tail) =>
      && (forall i :: 0 <= i < |flags| ==> Flag(os, flags[i]))
      && InWord(flags, tail) != "" && InWord(flags, tail) != "-"
      && TailFits(os, tail)
  }

  // How they are written

  function TailWord(tail: Tail): string {
    match tail
    case Nothing => ""
    case Bare(c) => [c]
    case Joined(c, arg) => [c] + arg
    case Separate(c, _) => [c]
  }

  /** The word of a group behind its dash. */
  function InWord(flags: string, tail: Tail): string {
    flags + TailWord(tail)
  }

  function Words(item: Item): (w: seq<string>)
    ensures 1 <= |w| <= 2
  {
    match item
    case Operand(word) => [word]
    case Group(flags, tail) => ["-" + InWord(flags, tail)] + if tail.Separate? then [tail.arg] else []
  }

  function Written(items: seq<Item>): seq<string> {
    if items == [] then [] else Words(items[0]) + Written(items[1..])
  }

  // What they say

  function FlagSaid(os: string, c: char): Event {
    if KindOf(os, c) == NoArg then Event(c, true, c, None) else Event(c, false, '?', None)
  }

  function Flags(os: string, flags: string): seq<Event> {
    if flags == "" then []
    else [FlagSaid(os, flags[0])] + Flags(os, flags[1..])
  }

  function TailEvents(tail: Tail): seq<Event> {
    match tail
    case Nothing => []
    case Bare(c) => [Event(c, true, c, None)]
    case Joined(c, arg) => [Event(c, true, c, Some(arg))]
    case Separate(c, arg) => [Event(c, true, c, Some(arg))]
  }

  function Said(os: string, item: Item): seq<Event> {
    match item
    case Operand(_) => []
    case Group(flags, tail) => Flags(os, flags) + TailEvents(tail)
  }

  function AllSaid(os: string, items: seq<Item>): seq<Event> {
    if items == [] then [] else Said(os, items[0]) + AllSaid(os, items[1..])
  }

  /** The words of the options, and those of the operands, each in order. */
  function Sorted(items: seq<Item>, operands: bool): seq<string> {
    if items == [] then []
    else (if items[0].Operand? == operands then Words(items[0]) else []) + Sorted(items[1..], operands)
  }

  // Scanning finds it again

  lemma FlagScanned(os: string, args: seq<string>, i: nat, c: char, more: string)
    requires Flag(os, c) && i < |args|
    ensures ClusterEvents(os, args, i, [c] + more) == [FlagSaid(os, c)] + ClusterEvents(os, args, i, more)
    ensures WantsNext(os, [c] + more) <==> WantsNext(os, more)
  {
    hide KindOf;
    assert ([c] + more)[1..] == more;
  }

  lemma GroupParts(os: string, flags: string, tail: Tail)
    ensures flags == "" ==> InWord(flags, tail) == TailWord(tail) && Flags(os, flags) + TailEvents(tail) == TailEvents(tail)
    ensures flags != "" ==>
              InWord(flags, tail) == [flags[0]] + InWord(flags[1..], tail) && Flags(os, flags) == [FlagSaid(os, flags[0])] + Flags(os, flags[1..])
  {
  }

  lemma {:induction false} GroupSaid(os: string, args: seq<string>, i: nat, flags: string, tail: Tail)
    requires (forall k :: 0 <= k < |flags| ==> Flag(os, flags[k])) && TailFits(os, tail)
    requires i < |args| && (tail.Separate? ==> i + 1 < |args| && args[i + 1] == tail.arg)
    ensures ClusterEvents(os, args, i, InWord(flags, tail)) == Flags(os, flags) + TailEvents(tail)
    ensures WantsNext(os, InWord(flags, tail)) <==> tail.Separate?
    decreases |flags|
  {
    hide *;
    GroupParts(os, flags, tail);
    if flags == "" {
      TailSaid(os, args, i, tail);
    } else {
      var more := InWord(flags[1..], tail);
      GroupSaid(os, args, i, flags[1..], tail);
      FlagScanned(os, args, i, flags[0], more);
      Associative([FlagSaid(os, flags[0])], Flags(os, flags[1..]), TailEvents(tail));
    }
  }

  lemma TailSaid(os: string, args: seq<string>, i: nat, tail: Tail)
    requires TailFits(os, tail) && i < |args| && (tail.Separate? ==> i + 1 < |args| && args[i + 1] == tail.arg)
    ensures ClusterEvents(os, args, i, TailWord(tail)) == TailEvents(tail)
    ensures WantsNext(os, TailWord(tail)) <==> tail.Separate?
  {
    hide KindOf;
    var w := TailWord(tail);
    if w != "" {
      assert NextRest(os, w) == "" && ClusterEvents(os, args, i, "") == [];
      assert tail.Joined? ==> w[1..] == tail.arg;
    }
  }

  /** At the end of the words an argument may be missing; the caller is told by ':' if the option string begins
      with one. */
  lemma {:induction false} MissingSaid(os: string, args: seq<string>, i: nat, flags: string, c: char)
    requires (forall k :: 0 <= k < |flags| ==> Flag(os, flags[k])) && KindOf(os, c) == RequiredArg && i + 1 == |args|
    ensures ClusterEvents(os, args, i, flags + [c])
            == Flags(os, flags) + [Event(c, false, if os != "" && os[0] == ':' then ':' else '?', None)]
    decreases |flags|
  {
    if flags == "" {
      assert flags + [c] == [c] && ClusterEvents(os, args, i, "") == [];
    } else {
      hide KindOf;
      assert flags + [c] == [flags[0]] + (flags[1..] + [c]);
      MissingSaid(os, args, i, flags[1..], c);
      FlagScanned(os, args, i, flags[0], flags[1..] + [c]);
    }
  }

  /** What was written is found again, from any position on: the options with their arguments, and which words
      are options and which operands.  Behind the items there may be "--" and more operands. */
  lemma {:induction false} CommandScanned(os: string, args: seq<string>, i: nat, items: seq<Item>, dashes: seq<string>, more: seq<string>)
    requires (forall k :: 0 <= k < |items| ==> Fits(os, items[k])) && (dashes == ["--"] || (dashes == [] && more == []))
    requires i <= |args| && args[i..] == Written(items) + (dashes + more)
    ensures Events(os, args, i) == AllSaid(os, items)
    ensures Options(os, args, i) == Sorted(items, false) + dashes
    ensures Operands(os, args, i) == Sorted(items, true) + more
    decreases |items|
  {
    hide Said, Sorted, Fits, Events, Options, Operands, Words;
    Unsorted(items);
    if items == [] {
      EndScanned(os, args, i, dashes, more);
    } else {
      var w, j := Words(items[0]), i + |Words(items[0])|;
      Associative(w, Written(items[1..]), dashes + more);
      Cut(args, i, w, Written(items[1..]) + (dashes + more));
      CommandScanned(os, args, j, items[1..], dashes, more);
      ItemScanned(os, args, i, items[0]);
      Associative(if items[0].Operand? then [] else w, Sorted(items[1..], false), dashes);
      Associative(if items[0].Operand? then w else [], Sorted(items[1..], true), more);
    }
  }

  /** Words that a command line with these items consists of. */
  predicate IsCommand(os: string, words: seq<string>, items: seq<Item>, dashes: seq<string>, more: seq<string>) {
    && (forall k :: 0 <= k < |items| ==> Fits(os, items[k]))
    && (dashes == ["--"] || (dashes == [] && more == []))
    && words == Written(items) + (dashes + more)
  }

  lemma CommandPermuted(os: string, args: seq<string>, from: nat, items: seq<Item>, dashes: seq<string>, more: seq<string>)
    requires from <= |args| && IsCommand(os, args[from..], items, dashes, more)
    ensures Events(os, args, from) == AllSaid(os, items)
    ensures Permuted(os, args, from) == args[..from] + (Sorted(items, false) + dashes) + (Sorted(items, true) + more)
  {
    hide Fits, Events, Options, Operands;
    CommandScanned(os, args, from, items, dashes, more);
  }

  lemma Associative<T>(a: seq<T>, b: seq<T>, c: seq<T>)
    ensures (a + b) + c == a + (b + c)
  {
  }

  lemma Cut<T>(s: seq<T>, i: nat, a: seq<T>, b: seq<T>)
    requires i <= |s| && s[i..] == a + b
    ensures i + |a| <= |s| && s[i..i + |a|] == a && s[i + |a|..] == b
  {
    assert |s[i..]| == |a| + |b|;
    assert s[i..i + |a|] == s[i..][..|a|] && s[i + |a|..] == s[i..][|a|..];
  }

  lemma EndScanned(os: string, args: seq<string>, i: nat, dashes: seq<string>, more: seq<string>)
    requires i <= |args| && args[i..] == dashes + more && (dashes == ["--"] || (dashes == [] && more == []))
    ensures Events(os, args, i) == [] && Options(os, args, i) == dashes && Operands(os, args, i) == more
  {
    if dashes == ["--"] {
      assert args[i] == args[i..][0] && args[i + 1..] == args[i..][1..];
    }
  }

  lemma Unsorted(items: seq<Item>)
    ensures items == [] ==> Sorted(items, false) == Sorted(items, true) == []
    ensures items != [] ==>
              Sorted(items, true) == (if items[0].Operand? then Words(items[0]) else []) + Sorted(items[1..], true)
              && Sorted(items, false) == (if items[0].Operand? then [] else Words(items[0])) + Sorted(items[1..], false)
  {
  }

  lemma ItemScanned(os: string, args: seq<string>, i: nat, item: Item)
    requires Fits(os, item) && i + |Words(item)| <= |args| && args[i..i + |Words(item)|] == Words(item)
    ensures var j := i + |Words(item)|;
            && Events(os, args, i) == Said(os, item) + Events(os, args, j)
            && Options(os, args, i) == (if item.Operand? then [] else Words(item)) + Options(os, args, j)
            && Operands(os, args, i) == (if item.Operand? then Words(item) else []) + Operands(os, args, j)
  {
    hide KindOf, WantsNext, ClusterEvents, Flags;
    var j := i + |Words(item)|;
    assert args[i] == args[i..j][0] == Words(item)[0];
    match item
    case Operand(word) =>
    case Group(flags, tail) =>
      assert tail.Separate? ==> args[i + 1] == args[i..j][1] == tail.arg;
      assert args[i][1..] == InWord(flags, tail);
      GroupSaid(os, args, i, flags, tail);
      assert After(os, args, i, args[i][1..]) == j;
  }
}
