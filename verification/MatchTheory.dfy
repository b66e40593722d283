/** What one sweep of the opposite queue is, stated without following the loop. */
module MatchTheory {
  import opened Domain
  import opened BookSpec

  /** Something is left of every order. */
  ghost predicate Positive(queue: seq<OrderRec>) {
    forall i :: 0 <= i < |queue| ==> queue[i].Remaining() > 0
  }

  ghost predicate Sorted(side: Side, queue: seq<OrderRec>) {
    forall i, j :: 0 <= i < j < |queue| ==> AtLeastAsGood(side, queue[i].Px(), queue[j].Px())
  }

  /** A prefix of the queue is filled completely, at the makers' prices, in queue order. */
  ghost predicate FillsPrefix(taker: OrderRec, queue: seq<OrderRec>, s: Sweep) {
    && |s.done| <= |s.trades| <= |s.done| + 1 && |s.trades| <= |queue|
    && (forall i :: 0 <= i < |s.done| ==> s.done[i] == AfterFill(queue[i], queue[i].Remaining()))
    && (forall i :: 0 <= i < |s.done| ==> s.trades[i] == TradeOf(taker, queue[i], queue[i].Remaining()))
  }

  /** What is left is the rest of the queue, its head reduced by the last trade if that one was partial. */
  ghost predicate LeavesSuffix(taker: OrderRec, queue: seq<OrderRec>, s: Sweep)
    requires FillsPrefix(taker, queue, s)
  {
    var n := |s.done|;
    if |s.trades| == n then s.rest == queue[n..]
    else
      var q := s.trades[n].quantity;
      && 0 < q < queue[n].Remaining()
      && s.trades[n] == TradeOf(taker, queue[n], q)
      && s.rest == [AfterFill(queue[n], q)] + queue[n + 1..]
      && s.taker.Remaining() == 0
  }

  /** The taker gets exactly what was traded, never more than it wanted. */
  ghost predicate TakerPaid(taker: OrderRec, s: Sweep) {
    && s.taker == taker.(filled := taker.filled + TradedQuantity(s.trades))
    && (s.trades != [] ==> s.taker.Remaining() >= 0)
  }

  /** Every fill is within the limit, and nothing fillable is passed over. */
  ghost predicate RespectsLimit(taker: OrderRec, bound: Option<Price>, queue: seq<OrderRec>, s: Sweep) {
    && (forall i :: 0 <= i < |s.trades| && i < |queue| ==> Crosses(taker.side, bound, queue[i].Px()))
    && (s.taker.Remaining() <= 0 || s.rest == [] || !Crosses(taker.side, bound, s.rest[0].Px()))
  }

  ghost predicate IsSweep(taker: OrderRec, bound: Option<Price>, queue: seq<OrderRec>, s: Sweep) {
    && FillsPrefix(taker, queue, s) && LeavesSuffix(taker, queue, s)
    && TakerPaid(taker, s) && RespectsLimit(taker, bound, queue, s)
  }

  predicate Stops(taker: OrderRec, bound: Option<Price>, queue: seq<OrderRec>) {
    taker.Remaining() <= 0 || queue == [] || !Crosses(taker.side, bound, queue[0].Px())
  }

  lemma {:induction false} TradesPositive(taker: OrderRec, queue: seq<OrderRec>, s: Sweep)
    requires Positive(queue) && FillsPrefix(taker, queue, s) && LeavesSuffix(taker, queue, s)
    ensures forall i :: 0 <= i < |s.trades| ==> s.trades[i].quantity > 0
  {
  }

  lemma {:induction false} TotalPositive(trades: seq<Trade>)
    requires forall i :: 0 <= i < |trades| ==> trades[i].quantity > 0
    ensures TradedQuantity(trades) >= 0
    ensures trades != [] ==> TradedQuantity(trades) >= trades[0].quantity
  {
    if trades != [] {
      TotalPositive(trades[1..]);
    }
  }

  /** The rest of a sweep after its first maker is filled. */
  ghost function Later(s: Sweep): Sweep
    requires s.done != [] && s.trades != []
  {
    Sweep(s.taker, s.done[1..], s.rest, s.trades[1..])
  }

  lemma {:induction false} LaterIsSweep(taker: OrderRec, bound: Option<Price>, queue: seq<OrderRec>, s: Sweep)
    requires s.done != [] && queue != [] && IsSweep(taker, bound, queue, s)
    ensures IsSweep(taker.(filled := taker.filled + queue[0].Remaining()), bound, queue[1..], Later(s))
  {
    var t := taker.(filled := taker.filled + queue[0].Remaining());
    var l, q := Later(s), queue[1..];
    forall i | 0 <= i < |l.done|
      ensures l.done[i] == AfterFill(q[i], q[i].Remaining()) && l.trades[i] == TradeOf(t, q[i], q[i].Remaining())
    {
      assert s.done[i + 1] == AfterFill(queue[i + 1], queue[i + 1].Remaining());
      assert s.trades[i + 1] == TradeOf(taker, queue[i + 1], queue[i + 1].Remaining());
    }
    assert FillsPrefix(t, q, l);
    assert LeavesSuffix(t, q, l);
    forall i | 0 <= i < |l.trades|
      ensures Crosses(t.side, bound, q[i].Px())
    {
      assert Crosses(taker.side, bound, queue[i + 1].Px());
    }
  }

  lemma {:induction false} NoTradeUnique(taker: OrderRec, bound: Option<Price>, queue: seq<OrderRec>, s: Sweep)
    requires IsSweep(taker, bound, queue, s) && s.trades == []
    ensures s == Match(taker, bound, queue)
  {
    assert s.rest == queue;
  }

  lemma {:induction false} PartialUnique(taker: OrderRec, bound: Option<Price>, queue: seq<OrderRec>, s: Sweep)
    requires IsSweep(taker, bound, queue, s) && s.trades != [] && s.done == []
    ensures s == Match(taker, bound, queue)
  {
    assert s.trades[1..] == [];
    assert TradedQuantity(s.trades) == s.trades[0].quantity;
  }

  lemma {:induction false} FirstFits(taker: OrderRec, bound: Option<Price>, queue: seq<OrderRec>, s: Sweep)
    requires Positive(queue) && IsSweep(taker, bound, queue, s) && s.done != []
    ensures !Stops(taker, bound, queue) && queue[0].Remaining() <= taker.Remaining()
    ensures s.done[0] == AfterFill(queue[0], queue[0].Remaining()) && s.trades[0] == TradeOf(taker, queue[0], queue[0].Remaining())
  {
    TradesPositive(taker, queue, s);
    TotalPositive(s.trades);
  }

  /** At most one outcome is a sweep, and matching is it. */
  lemma {:induction false} SweepUnique(taker: OrderRec, bound: Option<Price>, queue: seq<OrderRec>, s: Sweep)
    requires Positive(queue) && IsSweep(taker, bound, queue, s)
    ensures s == Match(taker, bound, queue)
    decreases |queue|
  {
    hide Match, Positive, TradedQuantity;
    if s.trades == [] {
      NoTradeUnique(taker, bound, queue, s);
    } else if s.done == [] {
      PartialUnique(taker, bound, queue, s);
    } else {
      FirstFits(taker, bound, queue, s);
      LaterIsSweep(taker, bound, queue, s);
      PositiveTail(queue);
      SweepUnique(taker.(filled := taker.filled + queue[0].Remaining()), bound, queue[1..], Later(s));
      FirstThenLater(taker, bound, queue, s);
    }
  }

  lemma {:induction false} PositiveTail(queue: seq<OrderRec>)
    requires Positive(queue) && queue != []
    ensures Positive(queue[1..]) && queue[0].Remaining() > 0
  {
  }

  /** The first maker, then the sweep of the others. */
  lemma {:induction false} FirstThenLater(taker: OrderRec, bound: Option<Price>, queue: seq<OrderRec>, s: Sweep)
    requires s.done != [] && s.trades != [] && !Stops(taker, bound, queue) && 0 < queue[0].Remaining() <= taker.Remaining()
    requires s.done[0] == AfterFill(queue[0], queue[0].Remaining()) && s.trades[0] == TradeOf(taker, queue[0], queue[0].Remaining())
    requires Later(s) == Match(taker.(filled := taker.filled + queue[0].Remaining()), bound, queue[1..])
    ensures s == Match(taker, bound, queue)
  {
    assert s.done == [s.done[0]] + s.done[1..] && s.trades == [s.trades[0]] + s.trades[1..];
  }

  lemma {:induction false} EarlierIsSweep(taker: OrderRec, bound: Option<Price>, queue: seq<OrderRec>, l: Sweep)
    requires !Stops(taker, bound, queue) && 0 < queue[0].Remaining() <= taker.Remaining()
    requires IsSweep(taker.(filled := taker.filled + queue[0].Remaining()), bound, queue[1..], l)
    requires l.taker.Remaining() >= 0
    ensures IsSweep(taker, bound, queue, Prepend([TradeOf(taker, queue[0], queue[0].Remaining())], [AfterFill(queue[0], queue[0].Remaining())], l))
  {
    var first := queue[0].Remaining();
    var t := taker.(filled := taker.filled + first);
    var s := Prepend([TradeOf(taker, queue[0], first)], [AfterFill(queue[0], first)], l);
    forall i | 0 <= i < |s.done|
      ensures s.done[i] == AfterFill(queue[i], queue[i].Remaining()) && s.trades[i] == TradeOf(taker, queue[i], queue[i].Remaining())
    {
      if i > 0 {
        assert l.done[i - 1] == AfterFill(queue[1..][i - 1], queue[1..][i - 1].Remaining());
        assert l.trades[i - 1] == TradeOf(t, queue[1..][i - 1], queue[1..][i - 1].Remaining());
      }
    }
    assert FillsPrefix(taker, queue, s);
    assert LeavesSuffix(taker, queue, s);
    assert s.trades[1..] == l.trades;
    forall i | 0 <= i < |s.trades|
      ensures Crosses(taker.side, bound, queue[i].Px())
    {
      assert i > 0 ==> queue[i] == queue[1..][i - 1];
    }
  }

  lemma {:induction false} MatchNeverOverfills(taker: OrderRec, bound: Option<Price>, queue: seq<OrderRec>)
    requires taker.Remaining() >= 0
    ensures Match(taker, bound, queue).taker.Remaining() >= 0
    decreases |queue|
  {
    if !Stops(taker, bound, queue) {
      var fill := Min(taker.Remaining(), queue[0].Remaining());
      if AfterFill(queue[0], fill).Remaining() == 0 {
        MatchNeverOverfills(taker.(filled := taker.filled + fill), bound, queue[1..]);
      }
    }
  }

  lemma {:induction false} PartialIsSweep(taker: OrderRec, bound: Option<Price>, queue: seq<OrderRec>)
    requires !Stops(taker, bound, queue) && taker.Remaining() < queue[0].Remaining()
    ensures IsSweep(taker, bound, queue, Match(taker, bound, queue))
  {
    var fill := taker.Remaining();
    var s := Sweep(taker.(filled := taker.filled + fill), [], [AfterFill(queue[0], fill)] + queue[1..], [TradeOf(taker, queue[0], fill)]);
    assert s == Match(taker, bound, queue);
    hide Match;
    assert s.trades[1..] == [];
    assert TradedQuantity(s.trades) == fill;
  }

  lemma {:induction false} StoppedIsSweep(taker: OrderRec, bound: Option<Price>, queue: seq<OrderRec>)
    requires Stops(taker, bound, queue)
    ensures IsSweep(taker, bound, queue, Match(taker, bound, queue))
  {
  }

  lemma {:induction false} MatchIsSweep(taker: OrderRec, bound: Option<Price>, queue: seq<OrderRec>)
    requires Positive(queue)
    ensures IsSweep(taker, bound, queue, Match(taker, bound, queue))
    decreases |queue|
  {
    hide IsSweep;
    if Stops(taker, bound, queue) {
      StoppedIsSweep(taker, bound, queue);
    } else if taker.Remaining() < queue[0].Remaining() {
      PartialIsSweep(taker, bound, queue);
    } else {
      var t := taker.(filled := taker.filled + queue[0].Remaining());
      MatchIsSweep(t, bound, queue[1..]);
      MatchNeverOverfills(t, bound, queue[1..]);
      EarlierIsSweep(taker, bound, queue, Match(t, bound, queue[1..]));
    }
  }

  /** Matching is exactly the declarative sweep. */
  lemma {:induction false} MatchIffSweep(taker: OrderRec, bound: Option<Price>, queue: seq<OrderRec>, s: Sweep)
    requires Positive(queue)
    ensures IsSweep(taker, bound, queue, s) <==> s == Match(taker, bound, queue)
  {
    MatchIsSweep(taker, bound, queue);
    if IsSweep(taker, bound, queue, s) {
      SweepUnique(taker, bound, queue, s);
    }
  }

  // ---------- how much is traded ----------

  /** Everything resting that the taker may trade with, wherever it is in the queue. */
  function CrossingVolume(side: Side, bound: Option<Price>, queue: seq<OrderRec>): int {
    if queue == [] then 0
    else (if Crosses(side, bound, queue[0].Px()) then queue[0].Remaining() else 0) + CrossingVolume(side, bound, queue[1..])
  }

  lemma {:induction false} SortedTail(side: Side, queue: seq<OrderRec>)
    requires Sorted(side, queue) && queue != []
    ensures Sorted(side, queue[1..])
  {
  }

  /** Behind an order out of reach, everything is out of reach. */
  lemma {:induction false} NoneBehind(side: Side, bound: Option<Price>, queue: seq<OrderRec>)
    requires Sorted(side.Opposite(), queue) && (queue != [] ==> !Crosses(side, bound, queue[0].Px()))
    ensures CrossingVolume(side, bound, queue) == 0
    decreases |queue|
  {
    if queue != [] {
      SortedTail(side.Opposite(), queue);
      NoneBehind(side, bound, queue[1..]);
    }
  }

  lemma {:induction false} CrossingPositive(side: Side, bound: Option<Price>, queue: seq<OrderRec>)
    requires Positive(queue)
    ensures CrossingVolume(side, bound, queue) >= 0
  {
    if queue != [] {
      CrossingPositive(side, bound, queue[1..]);
    }
  }

  /** The total traded is the smaller of what was wanted and what was on offer. */
  lemma {:induction false} TotalIsMinimum(taker: OrderRec, bound: Option<Price>, queue: seq<OrderRec>)
    requires Positive(queue) && Sorted(taker.side.Opposite(), queue) && taker.Remaining() >= 0
    ensures TradedQuantity(Match(taker, bound, queue).trades) == Min(taker.Remaining(), CrossingVolume(taker.side, bound, queue))
    decreases |queue|
  {
    if queue == [] || !Crosses(taker.side, bound, queue[0].Px()) {
      NoneBehind(taker.side, bound, queue);
    } else {
      SortedTail(taker.side.Opposite(), queue);
      CrossingPositive(taker.side, bound, queue[1..]);
      if taker.Remaining() > 0 {
        var fill := Min(taker.Remaining(), queue[0].Remaining());
        var trade := TradeOf(taker, queue[0], fill);
        if fill == queue[0].Remaining() {
          var t := taker.(filled := taker.filled + fill);
          TotalIsMinimum(t, bound, queue[1..]);
          assert ([trade] + Match(t, bound, queue[1..]).trades)[1..] == Match(t, bound, queue[1..]).trades;
        } else {
          assert [trade][1..] == [];
        }
      }
    }
  }
}
