/** Scanning a permuted argument vector once more: when is the permutation itself harmless? */
module GetoptRescan {
  import opened Wrappers
  import opened GetoptSpec

  /** The scan from `i` ends in an option whose required argument is missing. */
  predicate EndsMissing(os: string, args: seq<string>, i: nat)
    requires i <= |args|
    decreases |args| - i
  {
    i < |args| && args[i] != "--" &&
    if IsOperand(args[i]) then EndsMissing(os, args, i + 1)
    else if WantsNext(os, args[i][1..]) && i + 1 == |args| then true
    else EndsMissing(os, args, After(os, args, i, args[i][1..]))
  }

  predicate EndsDashDash(os: string, args: seq<string>, i: nat)
    requires i <= |args|
    decreases |args| - i
  {
    i < |args| &&
    if args[i] == "--" then true
    else if IsOperand(args[i]) then EndsDashDash(os, args, i + 1)
    else EndsDashDash(os, args, After(os, args, i, args[i][1..]))
  }

  /** Without a "--" only arguments that look like operands are operands. */
  lemma {:induction false} OperandsLookLikeOperands(os: string, args: seq<string>, i: nat)
    requires i <= |args| && !EndsDashDash(os, args, i)
    ensures forall s :: s in Operands(os, args, i) ==> IsOperand(s)
    decreases |args| - i
  {
    if i < |args| {
      OperandsLookLikeOperands(os, args, if IsOperand(args[i]) then i + 1 else After(os, args, i, args[i][1..]));
    }
  }

  lemma {:induction false} NoOptionsAmongOperands(os: string, args: seq<string>, i: nat)
    requires i <= |args| && forall k :: i <= k < |args| ==> IsOperand(args[k])
    ensures Events(os, args, i) == [] && Options(os, args, i) == [] && Operands(os, args, i) == args[i..]
    decreases |args| - i
  {
    if i < |args| {
      NoOptionsAmongOperands(os, args, i + 1);
    }
  }

  /** A cluster means the same wherever it stands, if it finds the same next argument or none
      where it wants one. */
  lemma {:induction false} ClusterMoves(os: string, a: seq<string>, i: nat, b: seq<string>, j: nat, rest: string)
    requires i < |a| && j < |b|
    requires WantsNext(os, rest) ==> if i + 1 < |a| then j + 1 < |b| && a[i + 1] == b[j + 1] else j + 1 == |b|
    ensures ClusterEvents(os, a, i, rest) == ClusterEvents(os, b, j, rest)
    decreases |rest|
  {
    if rest != "" {
      ClusterMoves(os, a, i, b, j, NextRest(os, rest));
    }
  }

  /** The cluster that lacked its argument takes whatever comes to stand behind it. */
  lemma {:induction false} ClusterTakes(os: string, a: seq<string>, i: nat, b: seq<string>, j: nat, rest: string)
    requires i + 1 == |a| && j + 1 < |b| && WantsNext(os, rest)
    ensures |ClusterEvents(os, a, i, rest)| == |ClusterEvents(os, b, j, rest)| > 0
    ensures var n := |ClusterEvents(os, a, i, rest)| - 1;
            !ClusterEvents(os, a, i, rest)[n].ok && ClusterEvents(os, b, j, rest)[n].ok
    decreases |rest|
  {
    if NextRest(os, rest) != "" {
      ClusterTakes(os, a, i, b, j, NextRest(os, rest));
    }
  }

  /** One cluster of a moved scan: `out` has `p`, then the options of `args` from `i` on, then `q`. */
  lemma MovedCluster(os: string, args: seq<string>, i: nat, p: seq<string>, q: seq<string>)
    requires i < |args| && args[i] != "--" && !IsOperand(args[i])
    ensures var j, out := After(os, args, i, args[i][1..]), p + Options(os, args, i) + q;
            && out == (p + args[i..j]) + Options(os, args, j) + q
            && out[|p|] == args[i] && out[..|p|] == p && out[..|p| + (j - i)] == p + args[i..j]
            && (j == i + 2 ==> out[|p| + 1] == args[i + 1])
  {
    var j := After(os, args, i, args[i][1..]);
    SplitAtCluster(os, args, i);
    hide Options, WantsNext;
    Moved(args, i, j, p, Options(os, args, j), q);
  }

  lemma Moved<T>(a: seq<T>, i: nat, j: nat, p: seq<T>, o: seq<T>, q: seq<T>)
    requires i < j <= |a|
    ensures var out := p + (a[i..j] + o) + q;
            && out == (p + a[i..j]) + o + q
            && out[|p|] == a[i] && out[..|p|] == p && out[..|p| + (j - i)] == p + a[i..j]
            && (j == i + 2 ==> out[|p| + 1] == a[i + 1])
  {
  }

  /** Behind any prefix, the options alone, followed by operands, scan as they did in `args`. */
  lemma {:induction false} OptionsRescan(os: string, args: seq<string>, i: nat, p: seq<string>, q: seq<string>)
    requires i <= |args|
    requires EndsDashDash(os, args, i) || forall s :: s in q ==> IsOperand(s)
    requires EndsMissing(os, args, i) ==> q == []
    ensures var out := p + Options(os, args, i) + q;
            && Events(os, out, |p|) == Events(os, args, i)
            && Options(os, out, |p|) == Options(os, args, i)
            && Operands(os, out, |p|) == q
    decreases |args| - i
  {
    hide ClusterEvents, WantsNext;
    var out := p + Options(os, args, i) + q;
    if i == |args| {
      NoOptionsAmongOperands(os, out, |p|);
    } else if args[i] == "--" {
      assert out[|p|] == "--";
    } else if IsOperand(args[i]) {
      OptionsRescan(os, args, i + 1, p, q);
    } else {
      var rest := args[i][1..];
      var j := After(os, args, i, rest);
      MovedCluster(os, args, i, p, q);
      OptionsRescan(os, args, j, p + args[i..j], q);
      ClusterMoves(os, args, i, out, |p|, rest);
      assert After(os, out, |p|, rest) == |p| + (j - i);
      assert out[|p|..|p| + (j - i)] == args[i..j];
    }
  }

  /** ... except that a missing argument is found there when an operand follows. */
  lemma {:induction false} MissingRescan(os: string, args: seq<string>, i: nat, p: seq<string>, q: seq<string>)
    requires i <= |args| && EndsMissing(os, args, i) && q != []
    ensures Events(os, p + Options(os, args, i) + q, |p|) != Events(os, args, i)
    decreases |args| - i
  {
    hide ClusterEvents, WantsNext;
    var out := p + Options(os, args, i) + q;
    if IsOperand(args[i]) {
      MissingRescan(os, args, i + 1, p, q);
    } else {
      var rest := args[i][1..];
      var j := After(os, args, i, rest);
      MovedCluster(os, args, i, p, q);
      if WantsNext(os, rest) && i + 1 == |args| {
        ClusterTakes(os, args, i, out, |p|, rest);
        var n := |ClusterEvents(os, args, i, rest)| - 1;
        assert Events(os, args, i)[n] != Events(os, out, |p|)[n];
      } else {
        MissingRescan(os, args, j, p + args[i..j], q);
        ClusterMoves(os, args, i, out, |p|, rest);
        assert After(os, out, |p|, rest) == |p| + (j - i);
        var c, x, y := ClusterEvents(os, args, i, rest), Events(os, args, j), Events(os, out, |p| + (j - i));
        assert (c + x)[|c|..] == x && (c + y)[|c|..] == y;
      }
    }
  }

  /** The promise behind permuting -- that the program could as well have been called with its
      options first -- holds exactly unless the last option lacks its required argument while
      operands exist: permuting then hands it the first operand. */
  lemma RescanIff(os: string, args: seq<string>, start: nat)
    requires start <= |args|
    ensures Events(os, Permuted(os, args, start), start) == Events(os, args, start)
            <==> !(EndsMissing(os, args, start) && Operands(os, args, start) != [])
    ensures !(EndsMissing(os, args, start) && Operands(os, args, start) != []) ==>
              Permuted(os, Permuted(os, args, start), start) == Permuted(os, args, start)
  {
    hide Events, Options, Operands, EndsMissing, EndsDashDash, IsOperand;
    var p, q := args[..start], Operands(os, args, start);
    assert Permuted(os, args, start)[..|p|] == p;
    if EndsMissing(os, args, start) && q != [] {
      MissingRescan(os, args, start, p, q);
    } else {
      if !EndsDashDash(os, args, start) {
        OperandsLookLikeOperands(os, args, start);
      }
      OptionsRescan(os, args, start, p, q);
    }
  }

  /** The smallest such command line: "foo -o" with option string "o:" . */
  lemma RescanFails()
    ensures var args := ["prog", "foo", "-o"];
            && Permuted("o:", args, 1) == ["prog", "-o", "foo"]
            && Events("o:", args, 1) == [Event('o', false, '?', None)]
            && Events("o:", Permuted("o:", args, 1), 1) == [Event('o', true, 'o', Some("foo"))]
  {
    var args := ["prog", "foo", "-o"];
    assert args[2][1..] == "o";
    assert KindOf("o:", 'o') == RequiredArg;
    assert Options("o:", args, 2) == ["-o"] && Operands("o:", args, 2) == [];
    var out := ["prog", "-o", "foo"];
    assert out[1][1..] == "o";
    assert ClusterEvents("o:", out, 1, "o") == [Event('o', true, 'o', Some("foo"))];
    assert Events("o:", out, 3) == [];
    assert ClusterEvents("o:", args, 2, "o") == [Event('o', false, '?', None)];
    assert Events("o:", args, 3) == [];
  }
}
