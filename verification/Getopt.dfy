/** GNU getopt: the permuting scanner of adplugdb/getopt.c, its static variables as fields. */
module Getopt {
  import opened Wrappers
  import opened GetoptSpec
  import opened GetoptCommand

  /** `a` with the blocks [p, p+len) and [q, q+len) exchanged. */
  function Swapped<T>(a: seq<T>, p: nat, q: nat, len: nat): (b: seq<T>)
    requires p + len <= q && q + len <= |a|
    ensures |b| == |a|
  {
    a[..p] + a[q..q + len] + a[p + len..q] + a[p..p + len] + a[q + len..]
  }

  lemma SwappedAt<T>(a: seq<T>, b: seq<T>, p: nat, q: nat, len: nat)
    requires p + len <= q && q + len <= |a| == |b|
    requires forall k :: p <= k < p + len ==> b[k] == a[q + k - p]
    requires forall k :: q <= k < q + len ==> b[k] == a[p + k - q]
    requires forall k :: 0 <= k < |a| && !(p <= k < p + len) && !(q <= k < q + len) ==> b[k] == a[k]
    ensures b == Swapped(a, p, q, len)
  {
  }

  /** `a` with the adjacent blocks [f, l) and [l, o) exchanged. */
  function Rotated<T>(a: seq<T>, f: nat, l: nat, o: nat): (b: seq<T>)
    requires f <= l <= o <= |a|
    ensures |b| == |a|
  {
    a[..f] + a[l..o] + a[f..l] + a[o..]
  }

  /** `a` equals `goal` outside [bottom, top), and becomes `goal` when its blocks
      [bottom, middle) and [middle, top) change places. */
  ghost predicate Rotating<T>(a: seq<T>, goal: seq<T>, bottom: nat, middle: nat, top: nat) {
    && bottom <= middle <= top <= |a| == |goal|
    && a[..bottom] == goal[..bottom]
    && a[middle..top] + a[bottom..middle] == goal[bottom..top]
    && a[top..] == goal[top..]
  }

  lemma RotatedTrivially<T>(a: seq<T>, f: nat, l: nat, o: nat)
    requires f <= l <= o <= |a| && (f == l || l == o)
    ensures Rotated(a, f, l, o) == a
  {
  }

  lemma RotatingStart<T>(a: seq<T>, f: nat, l: nat, o: nat)
    requires f <= l <= o <= |a|
    ensures Rotating(a, Rotated(a, f, l, o), f, l, o)
  {
  }

  lemma FiveParts<T>(p: seq<T>, u: seq<T>, v: seq<T>, w: seq<T>, r: seq<T>)
    ensures var c := p + u + v + w + r; var i, j := |p| + |u|, |p| + |u| + |v|;
            c[..|p|] == p && c[|p|..i] == u && c[i..j] == v && c[j..] == w + r && c[|p|..j] == u + v
  {
  }

  lemma SwapShortBottom<T>(a: seq<T>, goal: seq<T>, bottom: nat, middle: nat, top: nat)
    requires Rotating(a, goal, bottom, middle, top) && top - middle > middle - bottom
    ensures Rotating(Swapped(a, bottom, top - (middle - bottom), middle - bottom), goal, bottom, middle, top - (middle - bottom))
  {
    var len := middle - bottom;
    var p, x, y, z, r := a[..bottom], a[bottom..middle], a[middle..top - len], a[top - len..top], a[top..];
    GoalParts(a, goal, bottom, middle, top, y, z);
    hide Rotating;
    RotatingParts(p, z, y, x, r);
  }

  lemma RotatingParts<T>(p: seq<T>, z: seq<T>, y: seq<T>, x: seq<T>, r: seq<T>)
    ensures Rotating(p + z + y + x + r, p + y + z + x + r, |p|, |p| + |z|, |p| + |z| + |y|)
  {
    FiveParts(p, z, y, x, r);
    FiveParts(p, y, z, x, r);
  }

  lemma GoalParts<T>(a: seq<T>, goal: seq<T>, bottom: nat, middle: nat, top: nat, y: seq<T>, z: seq<T>)
    requires Rotating(a, goal, bottom, middle, top) && a[middle..top] == y + z
    ensures goal == a[..bottom] + y + z + a[bottom..middle] + a[top..]
  {
    assert goal == goal[..bottom] + goal[bottom..top] + goal[top..];
    assert goal[bottom..top] == (y + z) + a[bottom..middle];
  }

  lemma SwapShortTop<T>(a: seq<T>, goal: seq<T>, bottom: nat, middle: nat, top: nat)
    requires Rotating(a, goal, bottom, middle, top) && top - middle <= middle - bottom
    ensures Rotating(Swapped(a, bottom, middle, top - middle), goal, bottom + (top - middle), middle, top)
  {
    var len := top - middle;
    var b := Swapped(a, bottom, middle, len);
    var x, y, z := a[bottom..bottom + len], a[bottom + len..middle], a[middle..top];
    assert goal[bottom..top] == z + (x + y) by { assert a[bottom..middle] == x + y; }
    assert b[middle..top] == x && b[bottom + len..middle] == y;
    assert b[..bottom + len] == a[..bottom] + z;
    assert goal[..bottom + len] == goal[..bottom] + goal[bottom..top][..len] == goal[..bottom] + z;
    assert goal[bottom + len..top] == goal[bottom..top][len..] == x + y;
    assert b[top..] == a[top..];
  }

  lemma RotatingDone<T>(a: seq<T>, goal: seq<T>, bottom: nat, middle: nat, top: nat)
    requires Rotating(a, goal, bottom, middle, top) && (bottom == middle || middle == top)
    ensures a == goal
  {
    assert a[middle..top] + a[bottom..middle] == a[bottom..top];
    assert a == a[..bottom] + a[bottom..top] + a[top..];
    assert goal == goal[..bottom] + goal[bottom..top] + goal[top..];
  }

  /** In the middle of a scan that stands at `i` with `rest` of a cluster unread: from `i` on `a`
      is untouched; before it are the options found, with the operands passed in [first, last). */
  ghost predicate Layout(os: string, orig: seq<string>, start: nat, a: seq<string>, first: nat, last: nat, i: nat, rest: string) {
    && 1 <= start <= first <= last <= i <= |a| == |orig|
    && a[..start] == orig[..start]
    && a[i..] == orig[i..]
    && (rest != "" ==> i < |a|)
    && a[start..first] + a[last..i] + PendingOptions(os, orig, i, rest) == Options(os, orig, start)
    && a[first..last] + PendingOperands(os, orig, i, rest) == Operands(os, orig, start)
  }

  lemma LayoutBounds(os: string, orig: seq<string>, start: nat, a: seq<string>, first: nat, last: nat, i: nat, rest: string)
    requires Layout(os, orig, start, a, first, last, i, rest)
    ensures 1 <= start <= first <= last <= i <= |a| == |orig| && a[i..] == orig[i..] && (rest != "" ==> i < |a|)
  {
  }

  /** Between clusters: `a` holds orig[..start], then the options found up to `i`, then from
      `first` on the operands passed up to `i`, and is untouched from `i` on. */
  ghost predicate Grouped(os: string, orig: seq<string>, start: nat, a: seq<string>, first: nat, i: nat) {
    && 1 <= start <= first <= i <= |a| == |orig|
    && a[i..] == orig[i..]
    && a[..first] + Options(os, orig, i) == orig[..start] + Options(os, orig, start)
    && a[first..i] + Operands(os, orig, i) == Operands(os, orig, start)
  }

  /** Putting two adjacent blocks of options together. */
  lemma GroupedByMove(os: string, orig: seq<string>, start: nat, a: seq<string>, first: nat, last: nat, i: nat, rest: string, b: seq<string>)
    requires Layout(os, orig, start, a, first, last, i, rest) && rest == ""
    requires b == Rotated(a, first, last, i)
    ensures Grouped(os, orig, start, b, first + (i - last), i)
  {
    var f := first + (i - last);
    var options := Options(os, orig, i);
    RotatedParts(a, first, last, i);
    JoinParts(a, b, orig, start, first, last, i, f, options, Options(os, orig, start));
  }

  lemma RotatedParts<T>(a: seq<T>, f: nat, l: nat, o: nat)
    requires f <= l <= o <= |a|
    ensures Rotated(a, f, l, o)[..f + (o - l)] == a[..f] + a[l..o]
    ensures Rotated(a, f, l, o)[f + (o - l)..o] == a[f..l]
    ensures Rotated(a, f, l, o)[o..] == a[o..]
  {
  }

  lemma JoinParts<T>(a: seq<T>, b: seq<T>, orig: seq<T>, start: nat, first: nat, last: nat, i: nat, f: nat, x: seq<T>, y: seq<T>)
    requires start <= first <= last <= i <= |a| == |orig| && f <= |b|
    requires a[..start] == orig[..start] && b[..f] == a[..first] + a[last..i]
    requires a[start..first] + a[last..i] + x == y
    ensures b[..f] + x == orig[..start] + y
  {
    assert a[..first] == a[..start] + a[start..first];
    assert b[..f] + x == a[..start] + (a[start..first] + a[last..i] + x);
  }

  lemma GroupedBounds(os: string, orig: seq<string>, start: nat, a: seq<string>, first: nat, i: nat)
    requires Grouped(os, orig, start, a, first, i)
    ensures 1 <= start <= first <= i <= |a| == |orig|
    ensures i < |a| ==> a[i] == orig[i]
  {
    hide Options, Operands;
    assert i < |a| ==> a[i] == a[i..][0] == orig[i];
  }

  lemma OperandIsNoEvent(os: string, orig: seq<string>, i: nat)
    requires i < |orig| && IsOperand(orig[i])
    ensures Events(os, orig, i) == Events(os, orig, i + 1)
  {
    hide ClusterEvents;
  }

  lemma GroupedSkip(os: string, orig: seq<string>, start: nat, a: seq<string>, first: nat, i: nat)
    requires Grouped(os, orig, start, a, first, i) && i < |a| && IsOperand(a[i])
    ensures Grouped(os, orig, start, a, first, i + 1)
    ensures a[i] == orig[i]
  {
    hide Options, Operands, IsOperand;
    assert a[i] == a[i..][0] == orig[i];
    SplitAtOperand(os, orig, i);
    assert a[first..i + 1] == a[first..i] + [orig[i]];
    assert a[first..i + 1] + Operands(os, orig, i + 1) == a[first..i] + ([orig[i]] + Operands(os, orig, i + 1));
    assert a[i + 1..] == a[i..][1..] == orig[i..][1..];
  }

  /** "--" joins the options, and everything behind it the operands. */
  lemma GroupedEnd(os: string, orig: seq<string>, start: nat, a: seq<string>, first: nat, i: nat, b: seq<string>)
    requires Grouped(os, orig, start, a, first, i) && i < |a| && a[i] == "--"
    requires b == a[..first] + [a[i]] + a[first..i] + a[i + 1..]
    ensures Grouped(os, orig, start, b, first + 1, |a|)
    ensures a[i] == orig[i]
  {
    assert a[i] == a[i..][0] == orig[i];
    assert a[i + 1..] == a[i..][1..] == orig[i + 1..];
    assert b[..first + 1] == a[..first] + Options(os, orig, i);
    assert b[first + 1..] == a[first..i] + Operands(os, orig, i);
  }

  lemma GroupedAll(os: string, orig: seq<string>, start: nat, a: seq<string>, first: nat)
    requires Grouped(os, orig, start, a, first, |a|)
    ensures a == Permuted(os, orig, start) && first == start + |Options(os, orig, start)|
    ensures 1 <= start <= |orig| == |a|
  {
    assert a == a[..first] + a[first..|a|];
    assert a[..first] == orig[..start] + Options(os, orig, start);
  }

  /** The scan enters the cluster at `i`. */
  lemma GroupedCluster(os: string, orig: seq<string>, start: nat, a: seq<string>, first: nat, i: nat)
    requires Grouped(os, orig, start, a, first, i) && i < |a| && !IsOperand(a[i]) && a[i] != "--"
    ensures a[i] == orig[i] && Layout(os, orig, start, a, first, i, i, a[i][1..])
  {
    assert a[i] == a[i..][0];
    var o := Options(os, orig, i);
    assert a[..start] == (a[..first] + o)[..start] == orig[..start];
    assert a[start..first] + a[i..i] + o == (a[..first] + o)[start..];
  }

  /** Where the scan stands once the first character of `rest` has been dealt with. */
  function NextAt(os: string, args: seq<string>, i: nat, rest: string): (j: nat)
    requires i < |args| && rest != ""
    ensures i <= j <= |args|
  {
    if NextRest(os, rest) != "" then i else After(os, args, i, rest)
  }

  /** Dealing with one character takes one event off what is pending; the arguments it passes
      join the options. */
  lemma PendingStep(os: string, args: seq<string>, i: nat, rest: string)
    requires i < |args| && rest != ""
    ensures var j, rest' := NextAt(os, args, i, rest), NextRest(os, rest);
            && (rest' != "" ==> j < |args|)
            && PendingEvents(os, args, i, rest) == [HeadEvent(os, args, i, rest)] + PendingEvents(os, args, j, rest')
            && PendingOptions(os, args, i, rest) == args[i..j] + PendingOptions(os, args, j, rest')
            && PendingOperands(os, args, i, rest) == PendingOperands(os, args, j, rest')
  {
    hide Events, Options, Operands, HeadEvent, NextRest;
    var j, rest' := NextAt(os, args, i, rest), NextRest(os, rest);
    assert ClusterEvents(os, args, i, rest) == [HeadEvent(os, args, i, rest)] + ClusterEvents(os, args, i, rest');
    assert rest' == "" ==> ClusterEvents(os, args, i, rest') == [];
  }

  lemma ExtendParts<T>(a: seq<T>, orig: seq<T>, start: nat, first: nat, last: nat, i: nat, j: nat, x: seq<T>, x': seq<T>)
    requires start <= first <= last <= i <= j <= |a| == |orig|
    requires a[i..] == orig[i..] && x == orig[i..j] + x'
    ensures a[j..] == orig[j..]
    ensures a[start..first] + a[last..j] + x' == a[start..first] + a[last..i] + x
  {
    assert a[j..] == a[i..][j - i..] && orig[j..] == orig[i..][j - i..];
    assert a[i..j] == a[i..][..j - i] == orig[i..][..j - i] == orig[i..j];
    assert a[last..j] == a[last..i] + a[i..j];
    assert a[start..first] + a[last..j] + x' == a[start..first] + a[last..i] + (a[i..j] + x');
  }

  lemma LayoutStep(os: string, orig: seq<string>, start: nat, a: seq<string>, first: nat, last: nat, i: nat, rest: string)
    requires Layout(os, orig, start, a, first, last, i, rest) && rest != ""
    ensures Layout(os, orig, start, a, first, last, NextAt(os, orig, i, rest), NextRest(os, rest))
  {
    hide PendingOptions, PendingOperands, PendingEvents, NextAt, NextRest, Options, Operands;
    var j, rest' := NextAt(os, orig, i, rest), NextRest(os, rest);
    PendingStep(os, orig, i, rest);
    ExtendParts(a, orig, start, first, last, i, j, PendingOptions(os, orig, i, rest), PendingOptions(os, orig, j, rest'));
  }

  class Scanner {
    const argv: array<string>
    var optind: nat
    var nextchar: string          // the unread part of the current cluster; NULL and "" are alike
    var firstNonopt: nat
    var lastNonopt: nat
    var optarg: Option<string>
    var optopt: char
    var initialized: bool

    ghost var orig: seq<string>   // argv when the scan began
    ghost var start: nat          // optind when the scan began
    ghost var found: seq<Event>   // what the scan has returned so far

    constructor (args: array<string>)
      ensures argv == args && Fresh() && optind == 1
    {
      argv := args;
      optind, nextchar, firstNonopt, lastNonopt := 1, "", 0, 0;
      optarg, optopt, initialized := None, '?', false;
      orig, start, found := [], 0, [];
    }

    /** The next call begins a new scan. */
    predicate Fresh()
      reads this
    {
      !initialized || optind == 0
    }

    /** In the middle of a scan: the arguments from `optind` on are untouched, and the ones
        before it are the options found, with the operands skipped in between. */
    ghost predicate Scanning(os: string)
      reads this, argv
    {
      && initialized && optind != 0
      && Layout(os, orig, start, argv[..], firstNonopt, lastNonopt, optind, nextchar)
      && found + PendingEvents(os, orig, optind, nextchar) == Events(os, orig, start)
    }

    /** A scan may go on, or may begin. */
    ghost predicate Ready(os: string)
      reads this, argv
    {
      if Fresh() then 1 <= argv.Length && optind <= argv.Length else Scanning(os)
    }

    /** What must hold when the scan has returned -1. */
    ghost predicate Finished(os: string)
      reads this, argv
    {
      && |orig| == argv.Length
      && 1 <= start <= |orig|
      && argv[..] == Permuted(os, orig, start)
      && optind == start + |Options(os, orig, start)|
      && found == Events(os, orig, start)
    }

    /** Swaps argv[p..p+len) with argv[q..q+len), element by element. */
    method SwapBlocks(p: nat, q: nat, len: nat)
      requires p + len <= q && q + len <= argv.Length
      modifies argv
      ensures argv[..] == Swapped(old(argv[..]), p, q, len)
    {
      hide Swapped;
      ghost var a := argv[..];
      for i := 0 to len
        invariant forall k :: p <= k < p + i ==> argv[k] == a[q + k - p]
        invariant forall k :: q <= k < q + i ==> argv[k] == a[p + k - q]
        invariant forall k :: 0 <= k < argv.Length && !(p <= k < p + i) && !(q <= k < q + i) ==> argv[k] == a[k]
      {
        argv[p + i], argv[q + i] := argv[q + i], argv[p + i];
      }
      SwappedAt(a, argv[..], p, q, len);
    }

    /** Moves the options in [lastNonopt, optind) in front of the operands in
        [firstNonopt, lastNonopt), by swapping the shorter block to its place. */
    method Exchange()
      requires firstNonopt <= lastNonopt <= optind <= argv.Length
      modifies this`firstNonopt, this`lastNonopt, argv
      ensures argv[..] == Rotated(old(argv[..]), old(firstNonopt), old(lastNonopt), optind)
      ensures firstNonopt == old(firstNonopt + (optind - lastNonopt)) && lastNonopt == optind
    {
      var bottom: nat, middle: nat, top: nat := firstNonopt, lastNonopt, optind;
      hide Rotating, Rotated, Swapped;
      ghost var goal := Rotated(argv[..], bottom, middle, top);
      RotatingStart(argv[..], bottom, middle, top);
      while top > middle && middle > bottom
        invariant firstNonopt == old(firstNonopt) && lastNonopt == old(lastNonopt)
        invariant firstNonopt <= bottom <= middle <= top <= optind
        invariant Rotating(argv[..], goal, bottom, middle, top)
        decreases top - bottom
      {
        ghost var a := argv[..];
        if top - middle > middle - bottom {
          var len := middle - bottom;
          SwapShortBottom(a, goal, bottom, middle, top);
          SwapBlocks(bottom, top - len, len);
          top := top - len;
        } else {
          var len := top - middle;
          SwapShortTop(a, goal, bottom, middle, top);
          SwapBlocks(bottom, middle, len);
          bottom := bottom + len;
        }
      }
      RotatingDone(argv[..], goal, bottom, middle, top);
      firstNonopt := firstNonopt + (optind - lastNonopt);
      lastNonopt := optind;
    }

    method Initialize(os: string)
      requires 1 <= argv.Length && optind <= argv.Length
      modifies this
      ensures Scanning(os) && nextchar == "" && found == []
      ensures orig == argv[..] && optind == start == if old(optind) == 0 then 1 else old(optind)
      ensures optopt == old(optopt) && optarg == old(optarg)
    {
      if optind == 0 {
        optind := 1;
      }
      firstNonopt, lastNonopt := optind, optind;
      nextchar := "";
      initialized := true;
      orig, start, found := argv[..], optind, [];
      assert argv[start..firstNonopt] + argv[lastNonopt..optind] == [];
    }

    /** Moves the operands skipped so far behind the options found since. */
    method Regroup(os: string)
      requires Scanning(os) && nextchar == ""
      modifies this`firstNonopt, this`lastNonopt, argv
      ensures Grouped(os, orig, start, argv[..], firstNonopt, optind)
    {
      hide Layout, Grouped, Rotated, Options, Operands, Events;
      ghost var a, first, last := argv[..], firstNonopt, lastNonopt;
      lastNonopt := if lastNonopt > optind then optind else lastNonopt;
      firstNonopt := if firstNonopt > optind then optind else firstNonopt;
      LayoutBounds(os, orig, start, a, first, last, optind, nextchar);
      GroupedByMove(os, orig, start, a, first, last, optind, nextchar, Rotated(a, first, last, optind));
      if firstNonopt != lastNonopt && lastNonopt != optind {
        Exchange();
      } else {
        RotatedTrivially(a, firstNonopt, lastNonopt, optind);
        if lastNonopt != optind {
          firstNonopt := optind;
        }
      }
    }

    /** Skips any additional operands. */
    method SkipOperands(os: string)
      requires Grouped(os, orig, start, argv[..], firstNonopt, optind)
      requires found + Events(os, orig, optind) == Events(os, orig, start)
      modifies this`optind, this`lastNonopt
      ensures Grouped(os, orig, start, argv[..], firstNonopt, optind) && lastNonopt == optind
      ensures 1 <= firstNonopt <= optind <= argv.Length
      ensures found + Events(os, orig, optind) == Events(os, orig, start)
      ensures optind == argv.Length || !IsOperand(argv[optind])
    {
      hide Grouped, Events, IsOperand;
      GroupedBounds(os, orig, start, argv[..], firstNonopt, optind);
      while optind < argv.Length && IsOperand(argv[optind])
        invariant 1 <= start <= firstNonopt <= optind <= argv.Length == |orig|
        invariant Grouped(os, orig, start, argv[..], firstNonopt, optind)
        invariant found + Events(os, orig, optind) == Events(os, orig, start)
      {
        GroupedSkip(os, orig, start, argv[..], firstNonopt, optind);
        OperandIsNoEvent(os, orig, optind);
        optind := optind + 1;
      }
      lastNonopt := optind;
    }

    /** "--" ends the options: it counts as one itself, and all that follows is operands. */
    method EndOptions(os: string)
      requires Grouped(os, orig, start, argv[..], firstNonopt, optind)
      requires lastNonopt == optind < argv.Length && argv[optind] == "--"
      modifies this`optind, this`firstNonopt, this`lastNonopt, argv
      ensures Grouped(os, orig, start, argv[..], firstNonopt, argv.Length)
      ensures optind == lastNonopt == argv.Length
    {
      hide Options, Operands, IsOperand;
      ghost var a, at := argv[..], optind;
      GroupedEnd(os, orig, start, a, firstNonopt, at, a[..firstNonopt] + [a[at]] + a[firstNonopt..at] + a[at + 1..]);
      optind := optind + 1;
      assert a[at..at + 1] == [a[at]];
      if firstNonopt != lastNonopt && lastNonopt != optind {
        Exchange();
      } else if firstNonopt == lastNonopt {
        assert a == a[..at] + [a[at]] + [] + a[at + 1..];
        firstNonopt := optind;
      }
      lastNonopt := argv.Length;
      optind := argv.Length;
    }

    /** Steps to the next option cluster, or to the end of the scan. */
    method Advance(os: string) returns (done: bool)
      requires Scanning(os) && nextchar == ""
      modifies this`optind, this`nextchar, this`firstNonopt, this`lastNonopt, argv
      ensures done ==> Finished(os)
      ensures !done ==> Scanning(os) && nextchar != ""
    {
      hide Layout, Grouped, Permuted, ClusterEvents, WantsNext, After;
      Regroup(os);
      SkipOperands(os);
      GroupedBounds(os, orig, start, argv[..], firstNonopt, optind);
      if optind != argv.Length && argv[optind] == "--" {
        EndOptions(os);
      }
      if optind == argv.Length {
        GroupedAll(os, orig, start, argv[..], firstNonopt);
        if firstNonopt != lastNonopt {
          optind := firstNonopt;
        }
        done := true;
      } else {
        GroupedCluster(os, orig, start, argv[..], firstNonopt, optind);
        nextchar := argv[optind][1..];
        done := false;
      }
    }

    /** Decodes the next character of the current cluster. */
    method Decode(os: string) returns (c: char)
      requires Scanning(os) && nextchar != "" && optarg == None
      requires |orig| == argv.Length && optind < argv.Length
      modifies this`optind, this`nextchar, this`optarg, this`optopt, this`found
      ensures Scanning(os)
      ensures var e := HeadEvent(os, orig, old(optind), old(nextchar));
              && found == old(found) + [e] && c == e.code && optarg == e.arg
              && optopt == if e.ok then old(optopt) else e.opt
    {
      hide Layout, PendingEvents, Events;
      ghost var i, rest := optind, nextchar;
      LayoutBounds(os, orig, start, argv[..], firstNonopt, lastNonopt, i, rest);
      PendingStep(os, orig, i, rest);
      LayoutStep(os, orig, start, argv[..], firstNonopt, lastNonopt, i, rest);
      found := found + [HeadEvent(os, orig, i, rest)];
      c := nextchar[0];
      nextchar := nextchar[1..];
      if nextchar == "" {
        optind := optind + 1;
      }
      match KindOf(os, c)
      case Unknown =>
        optopt := c;
        c := '?';
      case NoArg =>
      case OptionalArg =>
        if nextchar != "" {
          optarg := Some(nextchar);
          optind := optind + 1;
        }
        nextchar := "";
      case RequiredArg =>
        if nextchar != "" {
          optarg := Some(nextchar);
          optind := optind + 1;
        } else if optind == argv.Length {
          optopt := c;
          c := MissingCode(os);
        } else {
          optarg := Some(argv[optind]);
          optind := optind + 1;
        }
        nextchar := "";
    }

    /** One call of getopt: None stands for the result -1. */
    method Next(os: string) returns (c: Option<char>)
      requires Permuting(os) && Ready(os)
      modifies this, argv
      ensures old(!Fresh()) ==> orig == old(orig) && start == old(start)
      ensures old(Fresh()) ==> orig == old(argv[..]) && start == if old(optind) == 0 then 1 else old(optind)
      ensures c == None ==> Finished(os) && optarg == None && optopt == old(optopt)
      ensures c == None ==> found == if old(Fresh()) then [] else old(found)
      ensures c != None ==> Scanning(os) && found != []
      ensures c != None ==> found[..|found| - 1] == if old(Fresh()) then [] else old(found)
      ensures c != None ==>
                var e := found[|found| - 1];
                c == Some(e.code) && optarg == e.arg && optopt == if e.ok then old(optopt) else e.opt
    {
      hide Layout, PendingEvents, Events;
      optarg := None;
      if optind == 0 || !initialized {
        Initialize(os);
      }
      if nextchar == "" {
        var done := Advance(os);
        if done {
          return None;
        }
      }
      LayoutBounds(os, orig, start, argv[..], firstNonopt, lastNonopt, optind, nextchar);
      var code := Decode(os);
      c := Some(code);
    }

    /** A whole run, as a caller loops until -1. */
    method ScanAll(os: string) returns (codes: seq<(char, Option<string>)>)
      requires Permuting(os) && Fresh() && 1 <= argv.Length && optind <= argv.Length
      modifies this, argv
      ensures var from := if old(optind) == 0 then 1 else old(optind);
              var args := old(argv[..]);
              && |codes| == |Events(os, args, from)|
              && (forall k :: 0 <= k < |codes| ==> codes[k] == (Events(os, args, from)[k].code, Events(os, args, from)[k].arg))
              && argv[..] == Permuted(os, args, from)
              && optind == from + |Options(os, args, from)|
      ensures var from := if old(optind) == 0 then 1 else old(optind);
              var args := old(argv[..]);
              forall items, dashes, more :: IsCommand(os, args[from..], items, dashes, more) ==>
                && |codes| == |AllSaid(os, items)|
                && (forall k :: 0 <= k < |codes| ==> codes[k] == (AllSaid(os, items)[k].code, AllSaid(os, items)[k].arg))
                && argv[..] == args[..from] + (Sorted(items, false) + dashes) + (Sorted(items, true) + more)
    {
      hide Layout, PendingEvents, Events, Permuted, IsCommand;
      codes := [];
      var c := Next(os);
      while c != None
        invariant orig == old(argv[..]) && start == if old(optind) == 0 then 1 else old(optind)
        invariant |found| == |codes| + if c == None then 0 else 1
        invariant c == None ==> Finished(os)
        invariant c != None ==> Scanning(os) && c == Some(found[|codes|].code) && optarg == found[|codes|].arg
        invariant forall k :: 0 <= k < |codes| ==> codes[k] == (found[k].code, found[k].arg)
        decreases |Events(os, orig, start)| - |codes|
      {
        ghost var before := found;
        LayoutBounds(os, orig, start, argv[..], firstNonopt, lastNonopt, optind, nextchar);
        assert found + PendingEvents(os, orig, optind, nextchar) == Events(os, orig, start);
        codes := codes + [(c.value, optarg)];
        c := Next(os);
        assert before <= found;
      }
      ghost var from := if old(optind) == 0 then 1 else old(optind);
      forall items, dashes, more | IsCommand(os, old(argv[from..]), items, dashes, more)
        ensures Events(os, old(argv[..]), from) == AllSaid(os, items)
        ensures Permuted(os, old(argv[..]), from) == old(argv[..])[..from] + (Sorted(items, false) + dashes) + (Sorted(items, true) + more)
      {
        CommandPermuted(os, old(argv[..]), from, items, dashes, more);
      }
    }
  }
}
