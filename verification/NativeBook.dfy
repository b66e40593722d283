/** The C++ order book: the same matching over intrusive lists, with node pointers in the cancel map. */
module NativeBook {
  import opened Domain
  import opened BookSpec
  import opened NativeLevels
  import opened NativeMap
  import opened Rows

  datatype CancelEntry = CancelEntry(side: Side, price: Price, node: OrderNode)

  ghost function NodeIds(nodes: seq<OrderNode>): set<OrderId> {
    set n | n in nodes :: n.id
  }

  ghost predicate Apart(past: seq<OrderNode>, queue: seq<OrderNode>) {
    forall i, j :: 0 <= i < |past| && 0 <= j < |queue| ==> past[i].id != queue[j].id
  }

  /** `past` makers are gone, `queue` is left, and finishing from here reaches `goal`. */
  ghost predicate Progress(node: OrderNode, queue: seq<OrderNode>, past: seq<OrderNode>, goal: Sweep, trades: seq<Trade>)
    reads node, past, queue
  {
    && Absent(node, past) && Absent(node, queue) && Apart(past, queue) && node.filled <= node.quantity
    && goal == Prepend(trades, Recs(past), Match(node.Rec(), Native.Bound(node.Rec()), Recs(queue)))
  }

  lemma {:induction false} SameBound(a: OrderRec, b: OrderRec)
    requires b == a.(filled := b.filled)
    ensures Native.Bound(a) == Native.Bound(b)
  {
  }

  /** The state after one fill, against what was recorded before it. */
  lemma {:induction false} ProgressKept(node: OrderNode, rest: seq<OrderNode>, past: seq<OrderNode>, goal: Sweep, trades: seq<Trade>,
                                        taker: OrderRec, ds: seq<OrderRec>, rs: seq<OrderRec>, queue: seq<OrderNode>)
    requires goal == Prepend(trades, ds, Match(taker, Native.Bound(taker), rs))
    requires |rs| == |queue| > 0 && ds == Recs(past) && node.filled <= node.quantity
    requires forall i :: 1 <= i < |queue| ==> rs[i] == queue[i].Rec()
    requires taker.Remaining() > 0 && Crosses(taker.side, Native.Bound(taker), rs[0].Px())
    requires var fill := Min(taker.Remaining(), rs[0].Remaining());
             node.Rec() == taker.(filled := taker.filled + fill) && queue[0].Rec() == AfterFill(rs[0], fill)
    requires rest == (if queue[0].Rec().Remaining() == 0 then queue[1..] else queue)
    requires Absent(node, past) && Absent(node, queue) && Apart(past, queue) && DistinctIds(queue)
    ensures var fill := Min(taker.Remaining(), rs[0].Remaining());
            Progress(node, rest, if queue[0].Rec().Remaining() == 0 then past + [queue[0]] else past, goal,
                     trades + [TradeOf(taker, rs[0], fill)])
  {
    hide Match, Prepend, Backend.Bound, OrderNode.Remaining;
    var gone := queue[0].Rec().Remaining() == 0;
    var past' := if gone then past + [queue[0]] else past;
    var made := if gone then ds + [queue[0].Rec()] else ds;
    var left := if gone then rs[1..] else [queue[0].Rec()] + rs[1..];
    assert Recs(past') == made;
    assert Recs(rest) == left;
    SweepAdvances(goal, trades, ds, taker, Native.Bound(taker), rs, queue[0].Rec(), made, left);
    SameBound(taker, node.Rec());
  }

  class OrderBook {
    const symbol: Symbol
    const bids: NodeMap
    const asks: NodeMap
    var sequence: nat
    var tradeSequence: nat
    var cancelMap: map<OrderId, CancelEntry>

    constructor (symbol: Symbol)
      ensures Valid() && View() == Book(symbol, [], [], 0)
      ensures this.symbol == symbol && bids.queue == [] && asks.queue == []
      ensures fresh(bids) && fresh(asks)
    {
      this.symbol, sequence, tradeSequence, cancelMap := symbol, 0, 0, map[];
      bids := new NodeMap(Buy, symbol);
      asks := new NodeMap(Sell, symbol);
    }

    /** One pass of the inner loop: fill the oldest order of the best level. `past` are the makers already gone. */
    method FillFront(node: OrderNode, opposite: NodeMap,
                     ghost past: seq<OrderNode>, ghost index: map<OrderId, CancelEntry>)
      returns (trade: Trade, ghost past': seq<OrderNode>)
      requires opposite.ValidBut(Some(0)) && opposite.levels != [] && opposite.rows[0] != []
      requires Absent(node, opposite.queue) && node.filled < node.quantity
      requires cancelMap == index - NodeIds(past)
      modifies `cancelMap, `tradeSequence, node`filled, opposite`rows, opposite`queue, opposite.levels[0], opposite.queue
      ensures opposite.ValidBut(Some(0)) && opposite.levels[0].nodes == opposite.rows[0]
      ensures cancelMap == index - NodeIds(past')
      ensures tradeSequence == old(tradeSequence) + 1
      ensures var maker := old(opposite.rows[0][0]);
              var fill := Min(old(node.Rec()).Remaining(), old(maker.Rec()).Remaining());
              && old(opposite.queue) != [] && maker == old(opposite.queue)[0] && maker.price == opposite.levels[0].price
              && fill > 0 && node.Rec() == old(node.Rec()).(filled := old(node.filled) + fill)
              && trade == TradeOf(old(node.Rec()), old(maker.Rec()), fill)
              && maker.Rec() == AfterFill(old(maker.Rec()), fill)
              && opposite.queue == (if maker.Rec().Remaining() == 0 then old(opposite.queue)[1..] else old(opposite.queue))
              && past' == (if maker.Rec().Remaining() == 0 then past + [maker] else past)
      ensures forall i :: 1 <= i < |old(opposite.queue)| ==> old(opposite.queue)[i].Rec() == old(opposite.queue[i].Rec())
    {
      hide NodeMap.ValidBut, OrderNode.Remaining, NodeIds, Absent;
      HeadOfMap(opposite);
      NotAmong(node, opposite.queue);
      var resting: OrderNode := opposite.levels[0].head;
      Exact(node);
      Exact(resting);
      var fill: Word := if node.Remaining() <= resting.Remaining() then node.Remaining() else resting.Remaining();
      tradeSequence := tradeSequence + 1;
      trade := Trade(node.symbol, resting.price, fill, node.side, resting.id, node.id);
      node.filled := (node.filled + fill) % WORD;
      opposite.TakeFront(fill);
      Exact(resting);
      past' := past;
      if resting.Remaining() == 0 {
        cancelMap := cancelMap - {resting.id};
        past' := past + [resting];
        IdGone(past, resting, index);
      }
    }

    /** The same pass, accounted against the sweep the whole submission must make. */
    method FillStep(node: OrderNode, opposite: NodeMap,
                    ghost past: seq<OrderNode>, ghost index: map<OrderId, CancelEntry>,
                    ghost goal: Sweep, ghost trades: seq<Trade>)
      returns (trade: Trade, ghost past': seq<OrderNode>)
      requires opposite.ValidBut(Some(0)) && opposite.levels != [] && opposite.rows[0] != []
      requires Progress(node, opposite.queue, past, goal, trades) && node.filled < node.quantity
      requires Crosses(node.side, Native.Bound(node.Rec()), opposite.levels[0].price)
      requires cancelMap == index - NodeIds(past)
      modifies `cancelMap, `tradeSequence, node`filled, opposite`rows, opposite`queue, opposite.levels[0], opposite.queue
      ensures opposite.ValidBut(Some(0)) && opposite.levels[0].nodes == opposite.rows[0]
      ensures cancelMap == index - NodeIds(past') && tradeSequence == old(tradeSequence) + 1
      ensures Progress(node, opposite.queue, past', goal, trades + [trade])
      ensures past' + opposite.queue == past + old(opposite.queue)
      ensures forall i :: 0 <= i < |opposite.queue| ==> opposite.queue[i] in old(opposite.queue)
      ensures |past'| + |opposite.queue| == |past| + |old(opposite.queue)|
      ensures |past'| >= |past| && node.filled >= old(node.filled)
      ensures |past'| > |past| || node.filled > old(node.filled)
    {
      hide NodeMap.ValidBut, NodeIds, Match, Recs, Prepend, TradeOf, OrderNode.Remaining;
      HeadOfMap(opposite);
      NotAmong(node, past);
      NotAmong(node, opposite.queue);
      PastStays(past, opposite.queue);
      MapIds(opposite);
      ghost var taker, queue := node.Rec(), opposite.queue;
      ghost var rs, ds := Recs(queue), Recs(past);
      Exact(queue[0]);
      hide Apart, Absent, DistinctIds;
      trade, past' := FillFront(node, opposite, past, index);
      Moved(past, queue, past', opposite.queue);
      ProgressKept(node, opposite.queue, past, goal, trades, taker, ds, rs, queue);
    }

    /** The inner loop: fill from the best level until the order or the level is exhausted. */
    method FillLevel(node: OrderNode, opposite: NodeMap,
                     trades: seq<Trade>, ghost past: seq<OrderNode>,
                     ghost index: map<OrderId, CancelEntry>, ghost goal: Sweep)
      returns (trades': seq<Trade>, ghost past': seq<OrderNode>)
      requires opposite.ValidBut(Some(0)) && opposite.levels != [] && opposite.rows[0] != []
      requires Progress(node, opposite.queue, past, goal, trades) && node.filled < node.quantity
      requires Crosses(node.side, Native.Bound(node.Rec()), opposite.levels[0].price)
      requires cancelMap == index - NodeIds(past)
      modifies `cancelMap, `tradeSequence, node`filled, opposite`rows, opposite`queue, opposite.levels[0], opposite.queue
      ensures opposite.ValidBut(Some(0)) && opposite.levels[0].nodes == opposite.rows[0]
      ensures cancelMap == index - NodeIds(past')
      ensures tradeSequence - |trades'| == old(tradeSequence) - |trades|
      ensures Progress(node, opposite.queue, past', goal, trades')
      ensures past' + opposite.queue == past + old(opposite.queue)
      ensures forall i :: 0 <= i < |opposite.queue| ==> opposite.queue[i] in old(opposite.queue)
      ensures node.filled == node.quantity || opposite.rows[0] == []
      ensures |past'| >= |past| && node.filled >= old(node.filled)
      ensures |past'| > |past| || node.filled > old(node.filled)
    {
      hide NodeMap.ValidBut, NodeIds, Progress;
      trades', past' := trades, past;
      EmptyIffHeadless(opposite, 0);
      FilledIn(node, opposite.queue, past, goal, trades);
      while node.Remaining() > 0 && opposite.levels[0].head != null
        invariant opposite.ValidBut(Some(0)) && |opposite.rows| == |opposite.levels|
        invariant opposite.levels[0].head == null <==> opposite.rows[0] == []
        invariant forall i :: 0 <= i < |opposite.queue| ==> opposite.queue[i] != node
        invariant cancelMap == index - NodeIds(past')
        invariant tradeSequence - |trades'| == old(tradeSequence) - |trades|
        invariant Progress(node, opposite.queue, past', goal, trades') && node.filled <= node.quantity
        invariant Crosses(node.side, Native.Bound(node.Rec()), opposite.levels[0].price)
        invariant past' + opposite.queue == past + old(opposite.queue)
        invariant forall i :: 0 <= i < |opposite.queue| ==> opposite.queue[i] in old(opposite.queue)
        invariant |past'| >= |past| && node.filled >= old(node.filled)
        invariant |past'| > |past| || node.filled > old(node.filled) || (node.filled < node.quantity && opposite.rows[0] != [])
        decreases |opposite.queue|, node.quantity - node.filled
      {
        var trade;
        ghost var taker := node.Rec();
        trade, past' := FillStep(node, opposite, past', index, goal, trades');
        SameBound(taker, node.Rec());
        trades' := trades' + [trade];
        EmptyIffHeadless(opposite, 0);
        FilledIn(node, opposite.queue, past', goal, trades');
      }
      LevelNodes(opposite);
    }

    /** One pass of the outer loop: exhaust the best level, and delete it if it ran empty. */
    method FillBest(node: OrderNode, opposite: NodeMap,
                    trades: seq<Trade>, ghost past: seq<OrderNode>,
                    ghost index: map<OrderId, CancelEntry>, ghost goal: Sweep)
      returns (trades': seq<Trade>, ghost past': seq<OrderNode>)
      requires opposite.Valid() && opposite.levels != [] && node.filled < node.quantity
      requires Progress(node, opposite.queue, past, goal, trades)
      requires Crosses(node.side, Native.Bound(node.Rec()), opposite.levels[0].price)
      requires cancelMap == index - NodeIds(past)
      modifies `cancelMap, `tradeSequence, node`filled, opposite, opposite.levels[0], opposite.queue
      ensures opposite.Valid() && (opposite.levels == old(opposite.levels) || opposite.levels == old(opposite.levels)[1..])
      ensures cancelMap == index - NodeIds(past')
      ensures tradeSequence - |trades'| == old(tradeSequence) - |trades|
      ensures Progress(node, opposite.queue, past', goal, trades')
      ensures past' + opposite.queue == past + old(opposite.queue)
      ensures forall i :: 0 <= i < |opposite.queue| ==> opposite.queue[i] in old(opposite.queue)
      ensures |past'| >= |past| && node.filled >= old(node.filled)
      ensures |past'| > |past| || node.filled > old(node.filled)
    {
      hide NodeMap.ValidBut, NodeIds, Progress;
      FirstFilled(opposite);
      trades', past' := FillLevel(node, opposite, trades, past, index, goal);
      EmptyIffHeadless(opposite, 0);
      if opposite.levels[0].head == null {
        opposite.Drop(0);
        assert Without(old(opposite.levels), 0) == old(opposite.levels)[1..];
      } else {
        NoHole(opposite, 0);
      }
    }

    /** The outer loop: take the best opposite level while the order crosses it. */
    method MatchAgainst(node: OrderNode, opposite: NodeMap) returns (trades: seq<Trade>)
      requires opposite.Valid() && Absent(node, opposite.queue) && node.filled <= node.quantity
      modifies `cancelMap, `tradeSequence, node`filled, opposite, opposite.levels, opposite.queue
      ensures opposite.Valid() && forall j :: 0 <= j < |opposite.levels| ==> opposite.levels[j] in old(opposite.levels)
      ensures MatchedAs(node, opposite, trades, old(opposite.queue), Match(old(node.Rec()), Native.Bound(old(node.Rec())), old(Recs(opposite.queue))))
      ensures cancelMap == old(cancelMap) - NodeIds(Gone(old(opposite.queue), opposite.queue))
      ensures tradeSequence == old(tradeSequence) + |trades| && node.filled <= node.quantity
    {
      hide NodeMap.ValidBut, NodeIds, Progress, Match, Prepend, MatchedAs, Gone, Absent, Recs;
      NotAmong(node, opposite.queue);
      trades := [];
      ghost var goal := Match(node.Rec(), Native.Bound(node.Rec()), Recs(opposite.queue));
      ghost var past, index, queue := [], cancelMap, opposite.queue;
      Starting(node, queue, goal);
      FilledIn(node, queue, past, goal, trades);
      while node.Remaining() > 0 && opposite.levels != []
        && Crosses(node.side, if node.kind.Market? then Some(opposite.levels[0].price) else Some(node.price), opposite.levels[0].price)
        invariant opposite.Valid() && forall j :: 0 <= j < |opposite.levels| ==> opposite.levels[j] in old(opposite.levels)
        invariant forall i :: 0 <= i < |opposite.queue| ==> opposite.queue[i] in queue
        invariant Progress(node, opposite.queue, past, goal, trades) && node.filled <= node.quantity
        invariant forall i :: 0 <= i < |opposite.queue| ==> opposite.queue[i] != node
        invariant past + opposite.queue == queue
        invariant cancelMap == index - NodeIds(past)
        invariant tradeSequence == old(tradeSequence) + |trades|
        decreases |opposite.queue|, node.quantity - node.filled
      {
        ghost var was, left := past, opposite.queue;
        trades, past := FillBest(node, opposite, trades, past, index, goal);
        FilledIn(node, opposite.queue, past, goal, trades);
        assert |past| + |opposite.queue| == |was + left|;
      }
      SweepDone(node, opposite, past, goal, trades, queue);
    }

    /** Matching leaves the order's own side alone. */
    method MatchPhase(node: OrderNode, own: NodeMap, opposite: NodeMap) returns (trades: seq<Trade>)
      requires own.Valid() && opposite.Valid() && Separate(own, opposite)
      requires Absent(node, own.queue) && Absent(node, opposite.queue) && node.filled <= node.quantity
      modifies `cancelMap, `tradeSequence, node`filled, opposite, opposite.levels, opposite.queue
      ensures own.Valid() && opposite.Valid()
      ensures forall j :: 0 <= j < |opposite.levels| ==> opposite.levels[j] in old(opposite.levels)
      ensures MatchedAs(node, opposite, trades, old(opposite.queue), Match(old(node.Rec()), Native.Bound(old(node.Rec())), old(Recs(opposite.queue))))
      ensures cancelMap == old(cancelMap) - NodeIds(Gone(old(opposite.queue), opposite.queue))
      ensures tradeSequence == old(tradeSequence) + |trades| && node.filled <= node.quantity
      ensures own.queue == old(own.queue) && own.levels == old(own.levels) && Recs(own.queue) == old(Recs(own.queue))
    {
      hide NodeMap.ValidBut, MatchedAs, Absent, NodeIds, Gone, Match, Recs, Backend.Bound;
      NotAmong(node, own.queue);
      trades := MatchAgainst(node, opposite);
    }

    /** Queue what is left of an order on its own side, and enter its pointer in the cancel map. */
    method RestOrder(node: OrderNode, own: NodeMap, opposite: NodeMap) returns (ghost k: nat)
      requires own.Valid() && opposite.Valid() && Separate(own, opposite)
      requires Absent(node, own.queue) && Absent(node, opposite.queue)
      requires node.side == own.side && node.symbol == own.symbol && node.Live()
      modifies `cancelMap, own, own.levels, own.queue`next, node`prev, node`next
      ensures own.Valid() && opposite.Valid()
      ensures forall j :: 0 <= j < |own.levels| ==> own.levels[j] in old(own.levels) || fresh(own.levels[j])
      ensures cancelMap == old(cancelMap)[node.id := CancelEntry(node.side, node.price, node)]
      ensures IsRank(old(own.queue), own.side, node.price, k)
      ensures own.queue == old(own.queue)[..k] + [node] + old(own.queue)[k..]
      ensures opposite.queue == old(opposite.queue) && opposite.levels == old(opposite.levels) && Recs(opposite.queue) == old(Recs(opposite.queue))
    {
      hide NodeMap.ValidBut, Absent, IsRank, Recs;
      NotAmong(node, opposite.queue);
      k := own.Rest(node);
      cancelMap := cancelMap[node.id := CancelEntry(node.side, node.price, node)];
    }

    /** Status after matching, then the time-in-force policy for what is left. */
    method ApplyPolicy(node: OrderNode) returns (rests: bool)
      requires node.filled <= node.quantity
      modifies node`status
      ensures node.Rec() == Settle(old(node.Rec())) && rests == Rests(old(node.Rec()))
      ensures node.Remaining() == 0 ==> node.status.Filled?
      ensures node.Remaining() > 0 && node.kind.Market? ==> node.status == if node.filled > 0 then PartiallyFilled else old(node.status)
      ensures node.Remaining() > 0 && node.kind.Limit? && (node.tif.IOC? || node.tif.FOK?) ==> node.status.Cancelled?
      ensures node.Remaining() > 0 && node.kind.Limit? && (node.tif.GTC? || node.tif.GTD?) && node.filled >= 0 ==>
                node.status == if node.filled == 0 then Open else PartiallyFilled
      ensures rests ==> node.Live()
    {
      rests := false;
      if node.Remaining() == 0 {
        node.status := Filled;
      } else if node.filled > 0 {
        node.status := PartiallyFilled;
      }
      if node.Remaining() > 0 && node.kind.Limit? {
        match node.tif
        case GTC | GTD =>
          rests := true;
          if node.filled == 0 {
            node.status := Open;
          }
        case IOC | FOK =>
          node.status := Cancelled;
      }
    }

    /** Matching, with the sweep it makes and the index it leaves. */
    method MatchSide(node: OrderNode, own: NodeMap, opposite: NodeMap) returns (trades: seq<Trade>)
      requires Sides(own, opposite, node.side)
      requires Absent(node, own.queue) && Absent(node, opposite.queue) && node.filled <= node.quantity
      modifies `cancelMap, `tradeSequence, node`filled, opposite, opposite.levels, opposite.queue
      ensures Sides(own, opposite, node.side) && Absent(node, opposite.queue) && node.filled <= node.quantity
      ensures Absent(node, Gone(old(opposite.queue), opposite.queue))
      ensures forall j :: 0 <= j < |opposite.levels| ==> opposite.levels[j] in old(opposite.levels)
      ensures own.queue == old(own.queue) && own.levels == old(own.levels) && Recs(own.queue) == old(Recs(own.queue))
      ensures tradeSequence == old(tradeSequence) + |trades|
      ensures Gone(old(opposite.queue), opposite.queue) + opposite.queue == old(opposite.queue)
      ensures var s := Match(old(node.Rec()), Native.Bound(old(node.Rec())), old(Recs(opposite.queue)));
              SweptTo(s, node.Rec(), trades, Recs(opposite.queue), Recs(Gone(old(opposite.queue), opposite.queue)))
    {
      hide NodeMap.ValidBut, Absent, Apart, Indexed, MatchedAs, NodeIds, Separate, Match, Gone, Recs;
      SidesSeparate(own, opposite);
      SoundIds(opposite);
      ghost var queue := opposite.queue;
      ghost var s := Match(node.Rec(), Native.Bound(node.Rec()), Recs(queue));
      trades := MatchPhase(node, own, opposite);
      AfterMatch(node, own, opposite, trades, queue, s, old(cancelMap));
    }

    /** Resting, with the place the order takes and the index it leaves. */
    method RestSide(node: OrderNode, own: NodeMap, opposite: NodeMap)
      requires Sides(own, opposite, node.side) && own.symbol == node.symbol && node.Live()
      requires Absent(node, own.queue) && Absent(node, opposite.queue)
      modifies `cancelMap, own, own.levels, own.queue`next, node`prev, node`next
      ensures Sides(own, opposite, node.side)
      ensures forall j :: 0 <= j < |own.levels| ==> own.levels[j] in old(own.levels) || fresh(own.levels[j])
      ensures opposite.queue == old(opposite.queue) && opposite.levels == old(opposite.levels) && Recs(opposite.queue) == old(Recs(opposite.queue))
      ensures Recs(own.queue) == Insert(old(Recs(own.queue)), node.Rec())
      ensures Joins(old(own.queue), own.queue, node)
    {
      hide NodeMap.ValidBut, Absent, Apart, Indexed, Separate, IsRank, Insert, Recs, Joins;
      SidesSeparate(own, opposite);
      ghost var queue, rs := own.queue, Recs(own.queue);
      ghost var k := RestOrder(node, own, opposite);
      IndexGains(old(cancelMap), queue, opposite.queue, k, node);
      RecsInserted(queue, rs, k, node);
      WedgedIn(queue, k, node);
    }

    /** Matching and the time-in-force policy: everything but resting what is left. */
    method MatchAndSettle(node: OrderNode, own: NodeMap, opposite: NodeMap) returns (trades: seq<Trade>, resting: bool)
      requires Sides(own, opposite, node.side)
      requires Absent(node, own.queue) && Absent(node, opposite.queue) && node.filled <= node.quantity
      modifies `cancelMap, `tradeSequence, node`filled, node`status, opposite, opposite.levels, opposite.queue
      ensures Sides(own, opposite, node.side) && Absent(node, opposite.queue) && (resting ==> node.Live())
      ensures forall j :: 0 <= j < |opposite.levels| ==> opposite.levels[j] in old(opposite.levels)
      ensures own.queue == old(own.queue) && own.levels == old(own.levels) && Recs(own.queue) == old(Recs(own.queue))
      ensures tradeSequence == old(tradeSequence) + |trades|
      ensures Gone(old(opposite.queue), opposite.queue) + opposite.queue == old(opposite.queue)
      ensures var s := Match(old(node.Rec()), Native.Bound(old(node.Rec())), old(Recs(opposite.queue)));
              && SweptTo(s, s.taker, trades, Recs(opposite.queue), Recs(Gone(old(opposite.queue), opposite.queue)))
              && node.Rec() == Settle(s.taker) && resting == Rests(s.taker)
    {
      hide Absent, Match, Settle, NodeMap.ValidBut, Gone, Recs, Apart, Indexed, Rests, Backend.Bound;
      ghost var queue := opposite.queue;
      ghost var s := Match(node.Rec(), Native.Bound(node.Rec()), Recs(queue));
      trades := MatchSide(node, own, opposite);
      ghost var gone := Gone(queue, opposite.queue);
      ghost var done, left := Recs(gone), Recs(opposite.queue);
      assert node.Rec() == s.taker && trades == s.trades && left == s.rest && done == s.done;
      NotAmong(node, own.queue);
      NotAmong(node, opposite.queue);
      NotAmong(node, gone);
      resting := ApplyPolicy(node);
      assert Recs(gone) == done && Recs(opposite.queue) == left;
    }

    /** A submission, with the two sides named from the order's point of view. */
    method SubmitTo(node: OrderNode, own: NodeMap, opposite: NodeMap) returns (trades: seq<Trade>, resting: bool)
      requires Sides(own, opposite, node.side) && own.symbol == node.symbol && node.filled <= node.quantity
      requires Absent(node, own.queue) && Absent(node, opposite.queue)
      modifies `cancelMap, `tradeSequence, node
      modifies own, own.levels, own.queue`next, opposite, opposite.levels, opposite.queue
      ensures Sides(own, opposite, node.side)
      ensures tradeSequence == old(tradeSequence) + |trades|
      ensures forall j :: 0 <= j < |own.levels| ==> own.levels[j] in old(own.levels) || fresh(own.levels[j])
      ensures forall j :: 0 <= j < |opposite.levels| ==> opposite.levels[j] in old(opposite.levels)
      ensures var s := Match(old(node.Rec()), Native.Bound(old(node.Rec())), old(Recs(opposite.queue)));
              && SweptTo(s, s.taker, trades, Recs(opposite.queue), Recs(Gone(old(opposite.queue), opposite.queue)))
              && node.Rec() == Settle(s.taker) && resting == Rests(s.taker)
              && Recs(own.queue) == (if resting then Insert(old(Recs(own.queue)), Settle(s.taker)) else old(Recs(own.queue)))
      ensures Gone(old(opposite.queue), opposite.queue) + opposite.queue == old(opposite.queue)
      ensures Joins(old(own.queue), own.queue, node) && Recs(old(own.queue)) == old(Recs(own.queue))
    {
      hide Absent, Match, Settle, NodeMap.ValidBut, Gone, Recs, Apart, Indexed, Insert, Rests, Joins, Backend.Bound;
      ghost var queue := opposite.queue;
      trades, resting := MatchAndSettle(node, own, opposite);
      ghost var gone := Gone(queue, opposite.queue);
      ghost var done, left := Recs(gone), Recs(opposite.queue);
      if resting {
        GoneApart(own.queue, queue, opposite.queue);
        NowSeparate(own, opposite);
        RestSide(node, own, opposite);
      }
      assert Recs(gone) == done && Recs(opposite.queue) == left;
      if !resting {
        Stays(own.queue, node);
      }
    }

    /** The two sides are sound, share no order, and are what the index says. */
    ghost predicate Sides(own: NodeMap, opposite: NodeMap, side: Side)
      reads this, own, own.levels, own.queue, opposite, opposite.levels, opposite.queue
    {
      && own.side == side && opposite.side == side.Opposite() && own.symbol == opposite.symbol
      && own.Valid() && opposite.Valid()
      && Apart(own.queue, opposite.queue)
      && Indexed(cancelMap, own.queue, opposite.queue)
    }

    /** What the book stands for. */
    ghost function View(): Book
      reads this, bids, asks, bids.queue, asks.queue
    {
      Book(symbol, Recs(bids.queue), Recs(asks.queue), sequence)
    }

    ghost predicate Valid()
      reads this, bids, asks, bids.levels, bids.queue, asks.levels, asks.queue
    {
      bids.symbol == symbol && Sides(bids, asks, Buy)
    }

    ghost function Side(side: Side): NodeMap {
      if side.Buy? then bids else asks
    }

    /** Match an order against the opposite side, then apply its time-in-force policy to what is left. */
    method Submit(node: OrderNode) returns (trades: seq<Trade>, resting: bool)
      requires Valid() && node.symbol == symbol && node.filled <= node.quantity
      requires Absent(node, bids.queue) && Absent(node, asks.queue)
      modifies this, node, bids, bids.levels, bids.queue, asks, asks.levels, asks.queue
      ensures Valid() && tradeSequence == old(tradeSequence) + |trades|
      ensures forall j :: 0 <= j < |bids.levels| ==> bids.levels[j] in old(bids.levels) || fresh(bids.levels[j])
      ensures forall j :: 0 <= j < |asks.levels| ==> asks.levels[j] in old(asks.levels) || fresh(asks.levels[j])
      ensures var out := BookSpec.Submit(old(View()), old(node.Rec()), Native.Bound(old(node.Rec())));
              && View() == out.0 && node.Rec() == out.1.order
              && trades == out.1.trades && resting == out.1.resting
              && Recs(Gone(old(Side(node.side.Opposite()).queue), Side(node.side.Opposite()).queue)) == out.1.done
      ensures var was, queue := old(Side(node.side.Opposite()).queue), Side(node.side.Opposite()).queue;
              Gone(was, queue) + queue == was
      ensures var was := old(Side(node.side).queue);
              Joins(was, Side(node.side).queue, node) && Recs(was) == old(Recs(Side(node.side).queue))
    {
      hide NodeMap.ValidBut, Absent, Apart, Indexed, Match, Settle, Rests, Insert, Recs, Gone, Joins;
      sequence := sequence + 1;
      if node.side.Buy? {
        trades, resting := SubmitTo(node, bids, asks);
      } else {
        SidesSwap(this, bids, asks, Buy, node.side);
        trades, resting := SubmitTo(node, asks, bids);
        SidesSwap(this, asks, bids, node.side, Buy);
      }
    }

    /** Withdrawal from one side leaves the other alone. */
    method Pull(own: NodeMap, opposite: NodeMap, price: Price, node: OrderNode, ghost at: nat) returns (found: bool)
      requires own.Valid() && opposite.Valid() && Separate(own, opposite)
      requires at < |own.queue| && own.queue[at] == node && node.price == price
      requires forall i :: 0 <= i < |own.queue| && i != at ==> own.queue[i] != node
      requires forall i :: 0 <= i < |opposite.queue| ==> opposite.queue[i] != node
      modifies own, own.levels, own.queue`prev, own.queue`next, node`status
      ensures own.Valid() && opposite.Valid() && forall j :: 0 <= j < |own.levels| ==> own.levels[j] in old(own.levels)
      ensures found && node.Rec() == AfterCancel(old(node.Rec()))
      ensures own.queue == Without(old(own.queue), at)
      ensures forall i :: 0 <= i < |old(own.queue)| && i != at ==> old(own.queue)[i].Rec() == old(own.queue[i].Rec())
      ensures opposite.queue == old(opposite.queue) && opposite.levels == old(opposite.levels) && Recs(opposite.queue) == old(Recs(opposite.queue))
    {
      hide NodeMap.ValidBut, Recs, Without;
      NoneLeft(own.queue, at);
      found := own.Withdraw(price, node, at);
      if found {
        node.status := Cancelled;
      }
    }

    /** Withdrawal keeps the index exact. */
    method CancelOn(own: NodeMap, opposite: NodeMap, entry: CancelEntry, ghost at: nat) returns (cancelled: OrderNode?)
      requires Sides(own, opposite, own.side)
      requires at < |own.queue| && own.queue[at] == entry.node && entry.node.price == entry.price
      modifies `cancelMap, own, own.levels, own.queue`prev, own.queue`next, entry.node`status
      ensures Sides(own, opposite, own.side) && forall j :: 0 <= j < |own.levels| ==> own.levels[j] in old(own.levels)
      ensures cancelled == entry.node && cancelled.Rec() == AfterCancel(old(entry.node.Rec()))
      ensures Recs(own.queue) == Without(old(Recs(own.queue)), at)
      ensures opposite.queue == old(opposite.queue) && opposite.levels == old(opposite.levels) && Recs(opposite.queue) == old(Recs(opposite.queue))
      ensures own.queue == Without(old(own.queue), at)
      ensures forall n :: n in old(own.queue) && n != cancelled ==> n.Rec() == old(n.Rec())
      ensures forall n :: n in old(opposite.queue) && n != cancelled ==> n.Rec() == old(n.Rec())
    {
      hide NodeMap.ValidBut, Apart, Indexed, Separate, Without, Recs;
      ghost var queue, rs := own.queue, Recs(own.queue);
      BeforeCancel(cancelMap, own, opposite, at);
      cancelMap := cancelMap - {entry.node.id};
      var found := Pull(own, opposite, entry.price, entry.node, at);
      cancelled := if found then entry.node else null;
      RecsWithout(queue, rs, at);
    }

    /** Cancel a resting order by id, going straight to its node; null when nothing with that id rests. */
    method Cancel(id: OrderId) returns (cancelled: OrderNode?)
      requires Valid()
      modifies `cancelMap, bids, bids.levels, bids.queue, asks, asks.levels, asks.queue
      ensures Valid()
      ensures forall j :: 0 <= j < |bids.levels| ==> bids.levels[j] in old(bids.levels)
      ensures forall j :: 0 <= j < |asks.levels| ==> asks.levels[j] in old(asks.levels)
      ensures cancelled != null <==> id in old(NodeIds(bids.queue) + NodeIds(asks.queue))
      ensures cancelled != null ==> cancelled in old(bids.queue) + old(asks.queue) && cancelled.id == id
      ensures forall n :: n in bids.queue ==> n in old(bids.queue)
      ensures forall n :: n in asks.queue ==> n in old(asks.queue)
      ensures forall n :: n in old(bids.queue) && n != cancelled ==> n.Rec() == old(n.Rec())
      ensures forall n :: n in old(asks.queue) && n != cancelled ==> n.Rec() == old(n.Rec())
      ensures (View(), if cancelled == null then None else Some(cancelled.Rec())) == BookSpec.Cancel(old(View()), id)
    {
      hide NodeMap.ValidBut, Apart, Indexed, BookSpec.Cancel, Without, Recs, NodeIds;
      if id !in cancelMap {
        NotIndexed(this, id);
        return null;
      }
      var entry := cancelMap[id];
      ghost var at := PositionOf(this, id);
      CancelView(this, entry.side, at);
      FewerNodes(Side(entry.side).queue, at);
      if entry.side.Buy? {
        cancelled := CancelOn(bids, asks, entry, at);
      } else {
        SidesSwap(this, bids, asks, Buy, Sell);
        cancelled := CancelOn(asks, bids, entry, at);
        SidesSwap(this, asks, bids, Sell, Buy);
      }
    }

    /** Depth-limited picture of both sides, in 32-bit totals and counts. */
    method TakeSnapshot(depth: nat) returns (snapshot: Snapshot)
      requires Valid()
      ensures snapshot == WrapSnapshot(BookSpec.TakeSnapshot(View(), depth))
    {
      hide NodeMap.ValidBut, Recs, Levels, Wrapped;
      var bidRows := bids.Rows(depth);
      var askRows := asks.Rows(depth);
      snapshot := Snapshot(symbol, sequence, bidRows, askRows);
      TakeWrapped(Levels(Recs(bids.queue)), depth);
      TakeWrapped(Levels(Recs(asks.queue)), depth);
    }
  }

  lemma {:induction false} TakeWrapped(ls: seq<Level>, depth: nat)
    ensures Take(Wrapped(ls), depth) == Wrapped(Take(ls, depth))
  {
  }

  lemma {:induction false} SidesSwap(b: OrderBook, own: NodeMap, opposite: NodeMap, side: Side, other: Side)
    requires b.Sides(own, opposite, side) && other != side
    ensures b.Sides(opposite, own, other)
  {
    hide NodeMap.ValidBut;
  }

  lemma {:induction false} NotIndexed(b: OrderBook, id: OrderId)
    requires b.Valid() && id !in b.cancelMap
    ensures BookSpec.Cancel(b.View(), id) == (b.View(), None)
    ensures id !in NodeIds(b.bids.queue) + NodeIds(b.asks.queue)
  {
    assert id !in NodeIds(b.bids.queue) && id !in NodeIds(b.asks.queue);
    NotFound(Recs(b.bids.queue), id);
    NotFound(Recs(b.asks.queue), id);
  }

  /** The index leads to the order's place in its queue. */
  lemma {:induction false} PositionOf(b: OrderBook, id: OrderId) returns (at: nat)
    requires b.Valid() && id in b.cancelMap
    ensures var entry := b.cancelMap[id];
            var queue := b.Side(entry.side).queue;
            at < |queue| && queue[at].id == id && queue[at] == entry.node && entry.node.price == entry.price
    ensures id in NodeIds(b.bids.queue) + NodeIds(b.asks.queue)
  {
    hide NodeMap.ValidBut;
    if id in NodeIds(b.bids.queue) {
      at :| 0 <= at < |b.bids.queue| && b.bids.queue[at].id == id;
      SideOf(b.bids, at);
    } else {
      at :| 0 <= at < |b.asks.queue| && b.asks.queue[at].id == id;
      SideOf(b.asks, at);
    }
  }

  /** Every queued order is on its own side. */
  lemma {:induction false} SideOf(m: NodeMap, at: nat)
    requires m.Valid() && at < |m.queue|
    ensures m.queue[at].side == m.side && m.queue[at].symbol == m.symbol && m.queue[at] in m.queue
  {
    hide NodeMap.RowOk;
    assert m.queue[at] in m.queue;
    var i := InSomeRow(m.rows, m.queue[at]);
    var k :| 0 <= k < |m.rows[i]| && m.rows[i][k] == m.queue[at];
    assert AtPrice(m.side, m.symbol, m.levels[i].price, m.rows[i]);
  }

  lemma {:induction false} CancelView(b: OrderBook, side: Side, at: nat)
    requires b.Valid() && at < |b.Side(side).queue|
    ensures var queue := b.Side(side).queue;
            BookSpec.Cancel(b.View(), queue[at].id)
              == (b.View().WithQueue(side, Without(Recs(queue), at)), Some(AfterCancel(queue[at].Rec())))
  {
    hide NodeMap.RowOk, Keyed;
    CancelAt(b.View(), side, at);
  }

  lemma {:induction false} FewerNodes(queue: seq<OrderNode>, at: nat)
    requires at < |queue|
    ensures forall n :: n in Without(queue, at) ==> n in queue
  {
  }

  lemma {:induction false} NoneLeft(queue: seq<OrderNode>, at: nat)
    requires at < |queue| && forall i :: 0 <= i < |queue| && i != at ==> queue[i] != queue[at]
    ensures forall i :: 0 <= i < |Without(queue, at)| ==> Without(queue, at)[i] != queue[at]
  {
  }

  lemma {:induction false} RecsWithout(queue: seq<OrderNode>, rs: seq<OrderRec>, at: nat)
    requires at < |queue| == |rs| && forall i :: 0 <= i < |queue| && i != at ==> queue[i].Rec() == rs[i]
    ensures Recs(Without(queue, at)) == Without(rs, at)
  {
    var rest := Without(queue, at);
    assert forall i :: 0 <= i < |rest| ==> rest[i] == queue[if i < at then i else i + 1];
  }

  lemma {:induction false} BeforeCancel(index: map<OrderId, CancelEntry>, own: NodeMap, opposite: NodeMap, at: nat)
    requires own.Valid() && opposite.Valid() && own.side != opposite.side && at < |own.queue|
    requires Indexed(index, own.queue, opposite.queue) && Apart(own.queue, opposite.queue)
    ensures Separate(own, opposite)
    ensures forall i :: 0 <= i < |opposite.queue| ==> opposite.queue[i] != own.queue[at]
    ensures var own' := Without(own.queue, at);
            && Indexed(index - {own.queue[at].id}, own', opposite.queue) && Apart(own', opposite.queue)
            && forall i :: 0 <= i < |own.queue| && i != at ==> own.queue[i] != own.queue[at]
  {
    SidesSeparate(own, opposite);
    SoundIds(own);
    hide NodeMap.ValidBut;
    IndexDrops(index, own.queue, opposite.queue, at);
  }

  lemma {:induction false} IdsWithout(queue: seq<OrderNode>, at: nat)
    requires at < |queue| && DistinctIds(queue)
    ensures NodeIds(Without(queue, at)) == NodeIds(queue) - {queue[at].id}
  {
    var rest := Without(queue, at);
    IdsInserted(rest, at, queue[at]);
    assert rest[..at] + [queue[at]] + rest[at..] == queue;
    assert forall i :: 0 <= i < |rest| ==> rest[i] == if i < at then queue[i] else queue[i + 1];
  }

  /** An order leaves its queue and the index together. */
  lemma {:induction false} IndexDrops(index: map<OrderId, CancelEntry>, own: seq<OrderNode>, other: seq<OrderNode>, at: nat)
    requires at < |own| && Indexed(index, own, other) && Apart(own, other) && DistinctIds(own)
    ensures var own' := Without(own, at);
            Indexed(index - {own[at].id}, own', other) && Apart(own', other)
  {
    IdsWithout(own, at);
    assert own[at].id !in NodeIds(other);
    hide NodeIds;
  }

  lemma {:induction false} Exact(node: OrderNode)
    requires node.filled <= node.quantity
    ensures node.Remaining() == node.Rec().Remaining() && node.Rec().Px() == node.price
  {
  }

  lemma {:induction false} IdGone(past: seq<OrderNode>, node: OrderNode, index: map<OrderId, CancelEntry>)
    ensures index - NodeIds(past) - {node.id} == index - NodeIds(past + [node])
  {
    IdsSplit(past, [node]);
  }

  lemma {:induction false} Moved(past: seq<OrderNode>, queue: seq<OrderNode>, past': seq<OrderNode>, rest: seq<OrderNode>)
    requires queue != []
    requires (rest == queue && past' == past) || (rest == queue[1..] && past' == past + [queue[0]])
    ensures past' + rest == past + queue && |past'| + |rest| == |past| + |queue| && |past'| >= |past|
    ensures forall i :: 0 <= i < |rest| ==> rest[i] in queue
  {
  }

  lemma {:induction false} MapIds(m: NodeMap)
    requires m.ValidBut(Some(0))
    ensures DistinctIds(m.queue)
  {
  }

  lemma {:induction false} PastStays(past: seq<OrderNode>, queue: seq<OrderNode>)
    requires Apart(past, queue)
    ensures forall i, j :: 0 <= i < |past| && 0 <= j < |queue| ==> past[i] != queue[j]
  {
  }

  /** Nobody but `node` has joined the queue. */
  ghost predicate Joins(was: seq<OrderNode>, now: seq<OrderNode>, node: OrderNode) {
    forall n :: n in now ==> n in was || n == node
  }

  lemma {:induction false} WedgedIn(queue: seq<OrderNode>, k: nat, node: OrderNode)
    requires k <= |queue|
    ensures Joins(queue, queue[..k] + [node] + queue[k..], node)
  {
  }

  lemma {:induction false} Stays(queue: seq<OrderNode>, node: OrderNode)
    ensures Joins(queue, queue, node)
  {
  }

  /** The makers that have left the front of `queue`. */
  ghost function Gone(queue: seq<OrderNode>, rest: seq<OrderNode>): seq<OrderNode> {
    if |rest| <= |queue| then queue[..|queue| - |rest|] else []
  }

  ghost predicate MatchedAs(node: OrderNode, opposite: NodeMap, trades: seq<Trade>, queue: seq<OrderNode>, s: Sweep)
    reads node, opposite, queue
  {
    && node.Rec() == s.taker && trades == s.trades
    && |s.done| <= |queue| && opposite.queue == queue[|s.done|..]
    && Recs(queue) == s.done + s.rest
  }

  lemma {:induction false} SweepDone(node: OrderNode, opposite: NodeMap, past: seq<OrderNode>, goal: Sweep, trades: seq<Trade>, queue: seq<OrderNode>)
    requires opposite.Valid() && Progress(node, opposite.queue, past, goal, trades) && past + opposite.queue == queue
    requires node.filled == node.quantity || opposite.levels == [] || !Crosses(node.side, Native.Bound(node.Rec()), opposite.levels[0].price)
    ensures MatchedAs(node, opposite, trades, queue, goal)
    ensures past == Gone(queue, opposite.queue)
  {
    if opposite.levels != [] {
      FirstFilled(opposite);
      HeadOfMap(opposite);
    }
    var rest, made := Recs(opposite.queue), Recs(past);
    NoMoreMatches(node.Rec(), Native.Bound(node.Rec()), rest, made, trades);
    assert Recs(queue) == made + rest;
  }

  lemma {:induction false} Starting(node: OrderNode, queue: seq<OrderNode>, goal: Sweep)
    requires Absent(node, queue) && node.filled <= node.quantity && goal == Match(node.Rec(), Native.Bound(node.Rec()), Recs(queue))
    ensures Progress(node, queue, [], goal, []) && [] + queue == queue && NodeIds([]) == {}
  {
  }

  lemma {:induction false} FilledIn(node: OrderNode, queue: seq<OrderNode>, past: seq<OrderNode>, goal: Sweep, trades: seq<Trade>)
    requires Progress(node, queue, past, goal, trades)
    ensures node.filled <= node.quantity && forall i :: 0 <= i < |queue| ==> queue[i] != node
  {
  }

  lemma {:induction false} LevelNodes(m: NodeMap)
    requires m.ValidBut(Some(0)) && m.levels != []
    ensures |m.levels| == |m.rows| && m.levels[0].nodes == m.rows[0]
  {
    Around(m, 0);
  }

  lemma {:induction false} FirstFilled(m: NodeMap)
    requires m.Valid() && m.levels != []
    ensures m.ValidBut(Some(0)) && |m.levels| == |m.rows| && m.rows[0] != []
  {
  }

  lemma {:induction false} HeadOfMap(m: NodeMap)
    requires m.ValidBut(Some(0)) && m.levels != [] && m.rows[0] != []
    ensures m.queue != [] && m.queue[0] == m.rows[0][0] == m.levels[0].head && m.queue[0].filled < m.queue[0].quantity
    ensures m.rows[0][0].price == m.levels[0].price
    ensures m.rows[0] == m.queue[..|m.rows[0]|]
  {
    Around(m, 0);
    FirstRow(m);
  }

  lemma {:induction false} NotAmong(node: OrderNode, queue: seq<OrderNode>)
    requires Absent(node, queue)
    ensures forall i :: 0 <= i < |queue| ==> queue[i] != node
  {
  }

  lemma {:induction false} IdsSplit(a: seq<OrderNode>, b: seq<OrderNode>)
    ensures NodeIds(a + b) == NodeIds(a) + NodeIds(b)
  {
    forall id | id in NodeIds(a) + NodeIds(b)
      ensures id in NodeIds(a + b)
    {
      if id in NodeIds(a) {
        var n :| n in a && n.id == id;
        assert n in a + b;
      } else {
        var n :| n in b && n.id == id;
        assert n in a + b;
      }
    }
  }

  /** The index maps every queued order to its true side, price and node. */
  ghost predicate IndexedSide(index: map<OrderId, CancelEntry>, queue: seq<OrderNode>) {
    forall i :: 0 <= i < |queue| ==> queue[i].id in index && index[queue[i].id] == CancelEntry(queue[i].side, queue[i].price, queue[i])
  }

  /** The index holds exactly the resting orders. */
  ghost predicate Indexed(index: map<OrderId, CancelEntry>, bids: seq<OrderNode>, asks: seq<OrderNode>) {
    IndexedSide(index, bids) && IndexedSide(index, asks) && index.Keys == NodeIds(bids) + NodeIds(asks)
  }

  /** A sweep has been carried out. */
  ghost predicate SweptTo(s: Sweep, taker: OrderRec, trades: seq<Trade>, rest: seq<OrderRec>, done: seq<OrderRec>) {
    taker == s.taker && trades == s.trades && rest == s.rest && done == s.done
  }

  ghost predicate Separate(own: NodeMap, opposite: NodeMap)
    reads own, opposite
  {
    && own != opposite
    && (forall i, j :: 0 <= i < |own.levels| && 0 <= j < |opposite.levels| ==> own.levels[i] != opposite.levels[j])
    && (forall i, j :: 0 <= i < |own.queue| && 0 <= j < |opposite.queue| ==> own.queue[i] != opposite.queue[j])
  }

  lemma {:induction false} GoneApart(own: seq<OrderNode>, queue: seq<OrderNode>, rest: seq<OrderNode>)
    requires Apart(own, queue)
    ensures forall i, j :: 0 <= i < |Gone(queue, rest)| && 0 <= j < |own| ==> Gone(queue, rest)[i] != own[j]
  {
  }

  lemma {:induction false} NowSeparate(own: NodeMap, opposite: NodeMap)
    requires Apart(own.queue, opposite.queue) && own != opposite
    ensures forall i, j :: 0 <= i < |own.queue| && 0 <= j < |opposite.queue| ==> own.queue[i] != opposite.queue[j]
  {
  }

  lemma {:induction false} SoundIds(m: NodeMap)
    requires m.Valid()
    ensures DistinctIds(m.queue)
  {
  }

  lemma {:induction false} SidesSeparate(own: NodeMap, opposite: NodeMap)
    requires own.Valid() && opposite.Valid() && own.side != opposite.side && Apart(own.queue, opposite.queue)
    ensures Separate(own, opposite)
  {
    hide NodeMap.RowOk;
  }

  /** Makers leave the front of the queue and the index together. */
  lemma {:induction false} IndexLoses(index: map<OrderId, CancelEntry>, own: seq<OrderNode>, queue: seq<OrderNode>, n: nat)
    requires n <= |queue| && Indexed(index, own, queue) && Apart(own, queue) && DistinctIds(queue)
    ensures Indexed(index - NodeIds(queue[..n]), own, queue[n..]) && Apart(own, queue[n..])
  {
    IdsSplit(queue[..n], queue[n..]);
    assert queue[..n] + queue[n..] == queue;
  }

  lemma {:induction false} IdsInserted(queue: seq<OrderNode>, k: nat, node: OrderNode)
    requires k <= |queue|
    ensures NodeIds(queue[..k] + [node] + queue[k..]) == NodeIds(queue) + {node.id}
  {
    IdsSplit(queue[..k] + [node], queue[k..]);
    IdsSplit(queue[..k], [node]);
    IdsSplit(queue[..k], queue[k..]);
    assert queue[..k] + queue[k..] == queue;
  }

  /** An order enters its queue and the index together. */
  lemma {:induction false} IndexGains(index: map<OrderId, CancelEntry>, own: seq<OrderNode>, other: seq<OrderNode>, k: nat, node: OrderNode)
    requires IsRank(own, node.side, node.price, k) && Indexed(index, own, other) && Apart(own, other)
    requires Absent(node, own) && Absent(node, other)
    ensures k <= |own|
    ensures var own' := own[..k] + [node] + own[k..];
            Indexed(index[node.id := CancelEntry(node.side, node.price, node)], own', other) && Apart(own', other)
  {
    var own' := own[..k] + [node] + own[k..];
    assert forall i :: 0 <= i < |own'| ==> own'[i] == if i < k then own[i] else if i == k then node else own[i - 1];
    IdsInserted(own, k, node);
    hide NodeIds;
  }

  lemma {:induction false} RankIs(queue: seq<OrderRec>, side: Side, price: Price, k: nat)
    requires k <= |queue|
    requires forall i :: 0 <= i < k ==> AtLeastAsGood(side, queue[i].Px(), price)
    requires k < |queue| ==> !AtLeastAsGood(side, queue[k].Px(), price)
    ensures Rank(queue, side, price) == k
  {
    if k > 0 {
      RankIs(queue[1..], side, price, k - 1);
    }
  }

  lemma {:induction false} RecsInserted(queue: seq<OrderNode>, rs: seq<OrderRec>, k: nat, node: OrderNode)
    requires |rs| == |queue| && IsRank(queue, node.side, node.price, k)
    requires forall i :: 0 <= i < |queue| ==> queue[i].Rec() == rs[i]
    ensures k <= |queue| && Recs(queue[..k] + [node] + queue[k..]) == Insert(rs, node.Rec())
  {
    RankIs(rs, node.side, node.price, k);
    var now := queue[..k] + [node] + queue[k..];
    assert forall i :: 0 <= i < |now| ==> now[i] == if i < k then queue[i] else if i == k then node else queue[i - 1];
  }

  lemma {:induction false} RecsSplit(queue: seq<OrderNode>, n: nat)
    requires n <= |queue|
    ensures Recs(queue)[..n] == Recs(queue[..n]) && Recs(queue)[n..] == Recs(queue[n..])
  {
  }

  lemma {:induction false} AbsentParts(node: OrderNode, queue: seq<OrderNode>, n: nat)
    requires n <= |queue| && Absent(node, queue)
    ensures Absent(node, queue[..n]) && Absent(node, queue[n..])
  {
  }

  /** What matching leaves true of the two sides and the index. */
  lemma {:induction false} AfterMatch(node: OrderNode, own: NodeMap, opposite: NodeMap, trades: seq<Trade>,
                                      queue: seq<OrderNode>, s: Sweep, index: map<OrderId, CancelEntry>)
    requires MatchedAs(node, opposite, trades, queue, s)
    requires Indexed(index, own.queue, queue) && Apart(own.queue, queue) && DistinctIds(queue)
    requires Absent(node, queue)
    ensures Indexed(index - NodeIds(Gone(queue, opposite.queue)), own.queue, opposite.queue)
    ensures Apart(own.queue, opposite.queue) && Absent(node, opposite.queue)
    ensures Absent(node, Gone(queue, opposite.queue))
    ensures SweptTo(s, node.Rec(), trades, Recs(opposite.queue), Recs(Gone(queue, opposite.queue)))
    ensures Gone(queue, opposite.queue) + opposite.queue == queue
  {
    hide Indexed, Apart, NodeIds, Recs, DistinctIds, Absent;
    var n := |s.done|;
    IndexLoses(index, own.queue, queue, n);
    assert Gone(queue, opposite.queue) == queue[..n];
    AbsentParts(node, queue, n);
    RecsSplit(queue, n);
    assert s.done == (s.done + s.rest)[..n] && s.rest == (s.done + s.rest)[n..];
  }
}
