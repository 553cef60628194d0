/** Chains of order jumps in the Adlib Tracker II player (src/a2m-v2.cpp): 128 orders, each a pattern
    or, from 0x80 on, a jump to another order. */
module A2mOrders {
  import opened Bits

  const ORDERS: nat := 0x80

  predicate IsPattern(orders: seq<byte>, o: nat)
    requires |orders| == ORDERS && o < ORDERS
  {
    orders[o] < 0x80
  }

  /** The order after `n` jumps, or where the chain has settled before. */
  function Hop(orders: seq<byte>, o: nat, n: nat): (r: nat)
    requires |orders| == ORDERS && o < ORDERS
    ensures r < ORDERS
    decreases n
  {
    if n == 0 || IsPattern(orders, o) then o else Hop(orders, orders[o] - 0x80, n - 1)
  }

  ghost predicate Settles(orders: seq<byte>, o: nat)
    requires |orders| == ORDERS && o < ORDERS
  {
    exists n :: IsPattern(orders, Hop(orders, o, n))
  }

  /** Whether one of the first `n` jumps leads back, or to itself. */
  predicate JumpsBack(orders: seq<byte>, o: nat, n: nat)
    requires |orders| == ORDERS && o < ORDERS
    decreases n
  {
    n > 0 && !IsPattern(orders, o) && (orders[o] - 0x80 <= o || JumpsBack(orders, orders[o] - 0x80, n - 1))
  }

  lemma {:induction false} HopAdds(orders: seq<byte>, o: nat, m: nat, n: nat)
    requires |orders| == ORDERS && o < ORDERS
    ensures Hop(orders, o, m + n) == Hop(orders, Hop(orders, o, m), n)
    decreases m
  {
    if m > 0 && !IsPattern(orders, o) {
      HopAdds(orders, orders[o] - 0x80, m - 1, n);
    }
  }

  lemma HopOnce(orders: seq<byte>, o: nat, n: nat)
    requires |orders| == ORDERS && o < ORDERS
    ensures var h := Hop(orders, o, n); Hop(orders, o, n + 1) == if IsPattern(orders, h) then h else orders[h] - 0x80
  {
    hide IsPattern;
    var h := Hop(orders, o, n);
    HopAdds(orders, o, n, 1);
    assert IsPattern(orders, h) || Hop(orders, h, 1) == Hop(orders, orders[h] - 0x80, 0);
  }

  /** A settled chain stays settled. */
  lemma Settled(orders: seq<byte>, o: nat, m: nat, n: nat)
    requires |orders| == ORDERS && o < ORDERS && m <= n && IsPattern(orders, Hop(orders, o, m))
    ensures Hop(orders, o, n) == Hop(orders, o, m)
  {
    hide IsPattern;
    HopAdds(orders, o, m, n - m);
  }

  /** No order is visited twice before the chain settles. */
  lemma {:induction false} NoneTwice(orders: seq<byte>, o: nat, i: nat, j: nat, n: nat)
    requires |orders| == ORDERS && o < ORDERS && i < j <= n && Hop(orders, o, i) == Hop(orders, o, j)
    requires IsPattern(orders, Hop(orders, o, n))
    ensures IsPattern(orders, Hop(orders, o, i))
    decreases n
  {
    hide IsPattern, Hop;
    HopAdds(orders, o, i, n - j);
    HopAdds(orders, o, j, n - j);
    var m := n - (j - i);
    if m >= j {
      NoneTwice(orders, o, i, j, m);
    } else {
      Settled(orders, o, m, j);
    }
  }

  /** The orders visited in the first `n` jumps. */
  function Visited(orders: seq<byte>, o: nat, n: nat): set<nat>
    requires |orders| == ORDERS && o < ORDERS
  {
    set k | 0 <= k < n :: Hop(orders, o, k)
  }

  lemma {:induction false} VisitedSize(orders: seq<byte>, o: nat, n: nat, last: nat)
    requires |orders| == ORDERS && o < ORDERS && n <= last && IsPattern(orders, Hop(orders, o, last))
    requires forall k :: 0 <= k < n ==> !IsPattern(orders, Hop(orders, o, k))
    ensures |Visited(orders, o, n)| == n
    decreases n
  {
    hide IsPattern, Hop;
    if n > 0 {
      VisitedSize(orders, o, n - 1, last);
      var h := Hop(orders, o, n - 1);
      if k :| 0 <= k < n - 1 && Hop(orders, o, k) == h {
        NoneTwice(orders, o, k, n - 1, last);
        assert false;
      }
      assert Visited(orders, o, n) == Visited(orders, o, n - 1) + {h};
    }
  }

  lemma {:induction false} SubsetSize(s: set<nat>, n: nat)
    requires forall x :: x in s ==> x < n
    ensures |s| <= n
  {
    if n > 0 {
      SubsetSize(s - {n - 1}, n - 1);
      if n - 1 in s { assert s == (s - {n - 1}) + {n - 1}; } else { assert s - {n - 1} == s; }
    } else {
      assert s == {};
    }
  }

  /** The first pattern of a chain: before it only jumps. */
  lemma {:induction false} FirstPattern(orders: seq<byte>, o: nat, n: nat) returns (first: nat)
    requires |orders| == ORDERS && o < ORDERS && IsPattern(orders, Hop(orders, o, n))
    ensures first <= n && IsPattern(orders, Hop(orders, o, first))
    ensures forall k :: 0 <= k < first ==> !IsPattern(orders, Hop(orders, o, k))
    decreases n
  {
    hide IsPattern, Hop;
    if k :| 0 <= k < n && IsPattern(orders, Hop(orders, o, k)) {
      first := FirstPattern(orders, o, k);
    } else {
      first := n;
    }
  }

  /** By pigeonhole: a chain settles within 127 jumps, or never. */
  lemma SettlesBy127(orders: seq<byte>, o: nat)
    requires |orders| == ORDERS && o < ORDERS
    ensures Settles(orders, o) <==> IsPattern(orders, Hop(orders, o, 127))
  {
    hide IsPattern, Hop;
    if n :| IsPattern(orders, Hop(orders, o, n)) {
      var first := FirstPattern(orders, o, n);
      VisitedSize(orders, o, first, n);
      var h := Hop(orders, o, first);
      assert h !in Visited(orders, o, first);
      var all := Visited(orders, o, first) + {h};
      SubsetSize(all, ORDERS);
      Settled(orders, o, first, 127);
    }
  }

  /** A chain that never settles leads back somewhere. */
  lemma {:induction false} AlwaysForward(orders: seq<byte>, o: nat, n: nat)
    requires |orders| == ORDERS && o < ORDERS && !JumpsBack(orders, o, n) && !IsPattern(orders, Hop(orders, o, n))
    ensures Hop(orders, o, n) >= o + n
    decreases n
  {
    if n > 0 { AlwaysForward(orders, orders[o] - 0x80, n - 1); }
  }

  lemma {:induction false} JumpsBackOnce(orders: seq<byte>, o: nat, n: nat)
    requires |orders| == ORDERS && o < ORDERS
    ensures var h := Hop(orders, o, n);
            JumpsBack(orders, o, n + 1) <==> JumpsBack(orders, o, n) || (!IsPattern(orders, h) && orders[h] - 0x80 <= h)
    decreases n
  {
    if n > 0 && !IsPattern(orders, o) {
      JumpsBackOnce(orders, orders[o] - 0x80, n - 1);
    } else if n == 0 && !IsPattern(orders, o) {
      assert !JumpsBack(orders, orders[o] - 0x80, 0);
    }
  }

  lemma NeverSettlingLeadsBack(orders: seq<byte>, o: nat)
    requires |orders| == ORDERS && o < ORDERS && !Settles(orders, o)
    ensures JumpsBack(orders, o, 128)
  {
    hide IsPattern, Hop, JumpsBack;
    if !JumpsBack(orders, o, 128) { AlwaysForward(orders, o, 128); }
  }

  class Orders {
    const orders: seq<byte>
    var current: byte
    var songend: bool
    var stopped: bool

    ghost predicate Valid()
      reads this
    {
      |orders| == ORDERS && current < ORDERS
    }

    constructor (orders: seq<byte>)
      requires |orders| == ORDERS
      ensures Valid() && this.orders == orders && current == 0 && !songend && !stopped
    {
      this.orders, current, songend, stopped := orders, 0, false, false;
    }

    /** Follows the jumps from `newOrder`, up to the 128th: lands on the pattern the chain leads to,
        or stops the song if there is none. */
    method SetCurrentOrder(newOrder: byte)
      requires Valid()
      modifies this
      ensures Valid()
      ensures var start := if newOrder < 0x80 then newOrder else 0;
              if Settles(orders, start)
              then && current == Hop(orders, start, 127) && IsPattern(orders, current) && stopped == old(stopped)
                   && songend == (old(songend) || JumpsBack(orders, start, 127))
              else current == 0 && songend && stopped
    {
      hide Hop, JumpsBack, Settles;
      ghost var start: nat := if newOrder < 0x80 then newOrder else 0;
      current := if newOrder < 0x80 then newOrder else 0;
      SettlesBy127(orders, start);
      Still(orders, start);
      if orders[current] < 0x80 {
        Settled(orders, start, 0, 127);
        JumpsBackSettled(orders, start, 0, 127);
        return;
      }
      var i: nat := 0;
      var again := true;
      while again
        invariant Valid() && i <= 128 && current == Hop(orders, start, i) && stopped == old(stopped)
        invariant songend == (old(songend) || JumpsBack(orders, start, i))
        invariant again || i > 0
        invariant i > 0 ==> !IsPattern(orders, Hop(orders, start, i - 1))
        invariant again == (i < 128 && !IsPattern(orders, current))
        decreases 128 - i
      {
        HopOnce(orders, start, i);
        JumpsBackOnce(orders, start, i);
        if orders[current] > 0x7F {
          var oldOrder := current;
          current := orders[current] - 0x80;
          if current <= oldOrder {
            songend := true;
          }
        }
        i := i + 1;
        again := i < 128 && orders[current] > 0x7F;
      }
      if i >= 128 {
        songend := true;
        Stop();
      } else {
        Settled(orders, start, i, 127);
        JumpsBackSettled(orders, start, i, 127);
      }
    }

    /** The part of a2t_stop that the order list sees. */
    method Stop()
      requires Valid()
      modifies this
      ensures Valid() && stopped && current == 0 && songend == old(songend)
    {
      stopped := true;
      current := 0;
    }

    /** The order that SetCurrentOrder would land on; -1 if there is none. */
    method CalcFollowingOrder(order: byte) returns (result: int)
      requires Valid() && order < ORDERS
      ensures result == if Settles(orders, order) then Hop(orders, order, 127) else -1
    {
      hide Hop, Settles;
      result := -1;
      var index: nat, jumpCount := order, 0;
      var again := true;
      SettlesBy127(orders, order);
      Still(orders, order);
      while again
        invariant index < ORDERS && 0 <= jumpCount <= 128 && index == Hop(orders, order, jumpCount)
        invariant result == -1 || (result == index && IsPattern(orders, index) && jumpCount <= 127)
        invariant jumpCount > 0 ==> !IsPattern(orders, Hop(orders, order, jumpCount - 1))
        invariant again == !(jumpCount > 0x7F || result != -1)
        decreases 128 - jumpCount, again
      {
        if orders[index] < 0x80 {
          result := index;
        } else {
          HopOnce(orders, order, jumpCount);
          index := orders[index] - 0x80;
          jumpCount := jumpCount + 1;
        }
        again := !(jumpCount > 0x7F || result != -1);
      }
      if result != -1 { Settled(orders, order, jumpCount, 127); }
    }
  }

  lemma Still(orders: seq<byte>, o: nat)
    requires |orders| == ORDERS && o < ORDERS
    ensures Hop(orders, o, 0) == o && !JumpsBack(orders, o, 0)
  {
  }

  lemma {:induction false} JumpsBackSettled(orders: seq<byte>, o: nat, m: nat, n: nat)
    requires |orders| == ORDERS && o < ORDERS && m <= n && IsPattern(orders, Hop(orders, o, m))
    ensures JumpsBack(orders, o, n) == JumpsBack(orders, o, m)
    decreases m
  {
    if m > 0 && !IsPattern(orders, o) { JumpsBackSettled(orders, orders[o] - 0x80, m - 1, n - 1); }
  }
}
