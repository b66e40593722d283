/** The Python order book: matching, time-in-force policy and the cancel index. */
module PyBook {
  import opened Domain
  import opened BookSpec
  import opened PyLevels

  ghost predicate Apart(past: seq<Order>, queue: seq<Order>) {
    forall i, j :: 0 <= i < |past| && 0 <= j < |queue| ==> past[i].id != queue[j].id
  }

  /** `past` makers are gone, `queue` is left, and finishing from here reaches `goal`. */
  ghost predicate Progress(order: Order, queue: seq<Order>, past: seq<Order>, goal: Sweep, trades: seq<Trade>)
    reads order, past, queue
  {
    && Absent(order, past) && Absent(order, queue) && Apart(past, queue)
    && goal == Prepend(trades, Recs(past), Match(order.Rec(), order.price, Recs(queue)))
  }

  /** The state after one fill, against what was recorded before it. */
  lemma {:induction false} ProgressKept(order: Order, opposite: LevelMap, past: seq<Order>, goal: Sweep, trades: seq<Trade>,
                     taker: OrderRec, ds: seq<OrderRec>, rs: seq<OrderRec>, queue: seq<Order>)
    requires goal == Prepend(trades, ds, Match(taker, order.price, rs))
    requires |rs| == |queue| > 0 && ds == Recs(past)
    requires forall i :: 1 <= i < |queue| ==> rs[i] == queue[i].Rec()
    requires taker.Remaining() > 0 && Crosses(taker.side, order.price, rs[0].Px())
    requires var fill := Min(taker.Remaining(), rs[0].Remaining());
             order.Rec() == taker.(filled := taker.filled + fill) && queue[0].Rec() == AfterFill(rs[0], fill)
    requires past + queue == (if queue[0].Remaining() == 0 then past + [queue[0]] else past) + opposite.queue
    requires Absent(order, past) && Absent(order, queue) && Apart(past, queue) && DistinctIds(queue)
    ensures var fill := Min(taker.Remaining(), rs[0].Remaining());
            Progress(order, opposite.queue, if queue[0].Remaining() == 0 then past + [queue[0]] else past, goal,
                     trades + [TradeOf(taker, rs[0], fill)])
  {
    hide Match, Prepend, Recs, AfterFill, DistinctIds, Apart, Absent;
    var gone := queue[0].Remaining() == 0;
    var past' := if gone then past + [queue[0]] else past;
    var made := if gone then ds + [queue[0].Rec()] else ds;
    var left := if gone then rs[1..] else [queue[0].Rec()] + rs[1..];
    assert opposite.queue == (past + queue)[|past'|..];
    assert opposite.queue == if gone then queue[1..] else queue;
    RecsConcat(past, [queue[0]]);
    assert Recs([queue[0]]) == [queue[0].Rec()];
    assert Recs(past') == made;
    assert Recs(opposite.queue) == left;
    FrontMoves(order, past, queue);
    SweepAdvances(goal, trades, ds, taker, order.price, rs, queue[0].Rec(), made, left);
  }

  /** Moving the front order over keeps what is absent absent and what is apart apart. */
  lemma {:induction false} FrontMoves(order: Order, past: seq<Order>, queue: seq<Order>)
    requires queue != [] && Absent(order, past) && Absent(order, queue) && Apart(past, queue) && DistinctIds(queue)
    ensures Absent(order, past + [queue[0]]) && Absent(order, queue[1..]) && Apart(past + [queue[0]], queue[1..])
  {
  }

  lemma {:induction false} Starting(order: Order, queue: seq<Order>, goal: Sweep)
    requires Absent(order, queue) && goal == Match(order.Rec(), order.price, Recs(queue))
    ensures Progress(order, queue, [], goal, []) && [] + queue == queue && ObjIds([]) == {}
  {
  }

  lemma {:induction false} QueueFacts(m: LevelMap)
    requires m.ValidBut(Some(0))
    ensures DistinctIds(m.queue) && forall i :: 0 <= i < |m.queue| ==> m.queue[i].Remaining() > 0 && m.queue[i].price.Some?
  {
    assert forall i :: 0 <= i < |m.queue| ==> m.queue[i] in m.queue;
  }

  lemma {:induction false} FirstFilled(m: LevelMap)
    requires m.Valid() && m.levels != []
    ensures m.ValidBut(Some(0)) && m.levels[0].orders != []
  {
  }

  /** The makers that have left the front of `queue`. */
  ghost function Gone(queue: seq<Order>, rest: seq<Order>): seq<Order> {
    if |rest| <= |queue| then queue[..|queue| - |rest|] else []
  }

  ghost predicate MatchedAs(order: Order, opposite: LevelMap, trades: seq<Trade>, queue: seq<Order>, s: Sweep)
    reads order, opposite, queue
  {
    && order.Rec() == s.taker && trades == s.trades
    && |s.done| <= |queue| && opposite.queue == queue[|s.done|..]
    && Recs(queue) == s.done + s.rest
  }

  lemma {:induction false} SweepDone(order: Order, opposite: LevelMap, past: seq<Order>, goal: Sweep, trades: seq<Trade>, queue: seq<Order>)
    requires opposite.Valid() && Progress(order, opposite.queue, past, goal, trades) && past + opposite.queue == queue
    requires order.Remaining() <= 0 || opposite.levels == [] || !Crosses(order.side, order.price, opposite.levels[0].price)
    ensures MatchedAs(order, opposite, trades, queue, goal)
    ensures past == Gone(queue, opposite.queue)
  {
    if opposite.levels != [] {
      FrontOfQueue(opposite);
    }
    var rest, made := Recs(opposite.queue), Recs(past);
    NoMoreMatches(order.Rec(), order.price, rest, made, trades);
    assert Recs(queue) == made + rest;
  }

  lemma {:induction false} Shift(past: seq<Order>, o: Order, rest: seq<Order>, index: map<OrderId, (Side, Price)>)
    ensures past + ([o] + rest) == (past + [o]) + rest
    ensures index - ObjIds(past) - {o.id} == index - ObjIds(past + [o])
  {
    IdsSplit(past, [o]);
  }

  class OrderBook {
    const symbol: Symbol
    const bids: LevelMap
    const asks: LevelMap
    var sequence: nat
    var cancelMap: map<OrderId, (Side, Price)>

    constructor (symbol: Symbol)
      ensures Valid() && View() == Book(symbol, [], [], 0)
      ensures this.symbol == symbol && bids.queue == [] && asks.queue == []
      ensures fresh(bids) && fresh(asks)
    {
      this.symbol, sequence, cancelMap := symbol, 0, map[];
      bids := new LevelMap(Buy, symbol);
      asks := new LevelMap(Sell, symbol);
    }

    /** One pass of the inner loop: fill the oldest order of the best level. `past` are the makers already gone. */
    method FillFront(order: Order, level: PriceLevel, opposite: LevelMap,
                     ghost past: seq<Order>, ghost index: map<OrderId, (Side, Price)>)
      returns (trade: Trade, ghost past': seq<Order>)
      requires opposite.ValidBut(Some(0)) && opposite.levels != [] && level == opposite.levels[0]
      requires level.orders != []
      requires order !in opposite.queue && order.Remaining() > 0
      requires cancelMap == index - ObjIds(past)
      modifies this`cancelMap, order`filled, opposite`queue, level, level.orders[0]
      ensures opposite.ValidBut(Some(0))
      ensures past' + opposite.queue == past + old(opposite.queue)
      ensures forall o :: o in opposite.queue ==> o in old(opposite.queue)
      ensures cancelMap == index - ObjIds(past')
      ensures var maker := old(level.orders[0]);
              var fill := Min(old(order.Remaining()), old(maker.Remaining()));
              && old(opposite.queue) != [] && maker == old(opposite.queue)[0]
              && maker.Px() == level.price
              && order.filled == old(order.filled) + fill
              && trade == TradeOf(old(order.Rec()), old(maker.Rec()), fill)
              && maker.Rec() == AfterFill(old(maker.Rec()), fill)
              && past' == (if maker.Remaining() == 0 then past + [maker] else past)
    {
      hide LevelMap.ValidBut, ObjIds;
      var resting := level.orders[0];
      FrontOfQueue(opposite);
      QueueFacts(opposite);
      assert opposite.queue == [resting] + opposite.queue[1..];
      var fill := Min(order.Remaining(), resting.Remaining());
      trade := Trade(order.symbol, resting.Px(), fill, order.side, resting.id, order.id);
      opposite.TakeFront(fill);
      assert order !in opposite.queue;
      order.filled := order.filled + fill;
      past' := past;
      if resting.Remaining() == 0 {
        cancelMap := cancelMap - {resting.id};
        past' := past + [resting];
        Shift(past, resting, opposite.queue, index);
      }
    }

    /** The same pass, accounted against the sweep the whole submission must make. */
    method FillStep(order: Order, level: PriceLevel, opposite: LevelMap,
                    ghost past: seq<Order>, ghost index: map<OrderId, (Side, Price)>,
                    ghost goal: Sweep, ghost trades: seq<Trade>)
      returns (trade: Trade, ghost past': seq<Order>)
      requires opposite.ValidBut(Some(0)) && opposite.levels != [] && level == opposite.levels[0]
      requires level.orders != [] && order.Remaining() > 0
      requires Progress(order, opposite.queue, past, goal, trades)
      requires Crosses(order.side, order.price, level.price)
      requires cancelMap == index - ObjIds(past)
      modifies this`cancelMap, order`filled, opposite`queue, level, level.orders[0]
      ensures opposite.ValidBut(Some(0))
      ensures past' + opposite.queue == past + old(opposite.queue)
      ensures forall o :: o in opposite.queue ==> o in old(opposite.queue)
      ensures cancelMap == index - ObjIds(past')
      ensures Progress(order, opposite.queue, past', goal, trades + [trade])
      ensures |past'| > |past| || order.Remaining() < old(order.Remaining())
      ensures |past'| >= |past| && order.Remaining() <= old(order.Remaining())
      ensures |past'| + |opposite.queue| == |past| + |old(opposite.queue)|
    {
      hide LevelMap.ValidBut, ObjIds, Match, Prepend, Recs, TradeOf;
      FrontOfQueue(opposite);
      QueueFacts(opposite);
      ghost var taker := order.Rec();
      ghost var queue := opposite.queue;
      ghost var rs, ds := Recs(queue), Recs(past);
      trade, past' := FillFront(order, level, opposite, past, index);
      ProgressKept(order, opposite, past, goal, trades, taker, ds, rs, queue);
      assert |past' + opposite.queue| == |past + queue|;
    }
  
    /** The inner loop: fill from one level until the order or the level is exhausted. */
    method FillLevel(order: Order, level: PriceLevel, opposite: LevelMap,
                     trades: seq<Trade>, ghost past: seq<Order>,
                     ghost index: map<OrderId, (Side, Price)>, ghost goal: Sweep)
      returns (trades': seq<Trade>, ghost past': seq<Order>)
      requires opposite.ValidBut(Some(0)) && opposite.levels != [] && level == opposite.levels[0]
      requires Progress(order, opposite.queue, past, goal, trades)
      requires Crosses(order.side, order.price, level.price)
      requires cancelMap == index - ObjIds(past)
      modifies this`cancelMap, order`filled, opposite`queue, level, opposite.queue
      ensures opposite.ValidBut(Some(0))
      ensures past' + opposite.queue == past + old(opposite.queue)
      ensures forall o :: o in opposite.queue ==> o in old(opposite.queue)
      ensures cancelMap == index - ObjIds(past')
      ensures Progress(order, opposite.queue, past', goal, trades')
      ensures order.Remaining() <= 0 || level.orders == []
      ensures |past'| >= |past| && order.Remaining() <= old(order.Remaining())
      ensures old(order.Remaining() > 0 && level.orders != []) ==> |past'| > |past| || order.Remaining() < old(order.Remaining())
    {
      trades', past' := trades, past;
      while order.Remaining() > 0 && level.orders != []
        invariant opposite.ValidBut(Some(0))
        invariant past' + opposite.queue == past + old(opposite.queue)
        invariant cancelMap == index - ObjIds(past')
        invariant Progress(order, opposite.queue, past', goal, trades')
        invariant |past'| >= |past| && order.Remaining() <= old(order.Remaining())
        invariant |past'| > |past| || order.Remaining() < old(order.Remaining()) || level.orders == old(level.orders)
        invariant forall o :: o in opposite.queue ==> o in old(opposite.queue)
        decreases |opposite.queue|, order.Remaining()
      {
        FrontOfQueue(opposite);
        var trade;
        assert level.orders[0] in opposite.queue && level.orders[0] in old(opposite.queue);
        trade, past' := FillStep(order, level, opposite, past', index, goal, trades');
        trades' := trades' + [trade];
      }
    }
  
    /** One pass of the outer loop: exhaust the best level, and delete it if it ran empty. */
    method FillBest(order: Order, opposite: LevelMap,
                    trades: seq<Trade>, ghost past: seq<Order>,
                    ghost index: map<OrderId, (Side, Price)>, ghost goal: Sweep)
      returns (trades': seq<Trade>, ghost past': seq<Order>)
      requires opposite.Valid() && opposite.levels != [] && order.Remaining() > 0
      requires Progress(order, opposite.queue, past, goal, trades)
      requires Crosses(order.side, order.price, opposite.levels[0].price)
      requires cancelMap == index - ObjIds(past)
      modifies this`cancelMap, order`filled, opposite, opposite.levels[0], opposite.queue
      ensures opposite.Valid() && (opposite.levels == old(opposite.levels) || opposite.levels == old(opposite.levels)[1..])
      ensures past' + opposite.queue == past + old(opposite.queue)
      ensures forall o :: o in opposite.queue ==> o in old(opposite.queue)
      ensures cancelMap == index - ObjIds(past')
      ensures Progress(order, opposite.queue, past', goal, trades')
      ensures |opposite.queue| <= |old(opposite.queue)| && order.Remaining() <= old(order.Remaining())
      ensures |opposite.queue| < |old(opposite.queue)| || order.Remaining() < old(order.Remaining())
    {
      hide LevelMap.ValidBut, Progress, ObjIds;
      var level := opposite.levels[0];
      FirstFilled(opposite);
      trades', past' := FillLevel(order, level, opposite, trades, past, index, goal);
      assert |past' + opposite.queue| == |past + old(opposite.queue)|;
      if level.orders == [] {
        opposite.Drop(0);
      } else {
        NoHole(opposite, 0);
      }
    }

    /** The outer loop: take the best opposite level while the order crosses it. */
    method MatchAgainst(order: Order, opposite: LevelMap) returns (trades: seq<Trade>)
      requires opposite.Valid() && Absent(order, opposite.queue)
      modifies this`cancelMap, order`filled, opposite, opposite.levels, opposite.queue
      ensures opposite.Valid() && forall l :: l in opposite.levels ==> l in old(opposite.levels)
      ensures MatchedAs(order, opposite, trades, old(opposite.queue), Match(old(order.Rec()), order.price, old(Recs(opposite.queue))))
      ensures cancelMap == old(cancelMap) - ObjIds(Gone(old(opposite.queue), opposite.queue))
    {
      hide LevelMap.ValidBut, Progress, ObjIds, Match, Prepend, MatchedAs, Gone, Absent, Recs;
      trades := [];
      ghost var goal := Match(order.Rec(), order.price, Recs(opposite.queue));
      ghost var past, index, queue := [], cancelMap, opposite.queue;
      Starting(order, queue, goal);
      while order.Remaining() > 0 && opposite.levels != [] && Crosses(order.side, order.price, opposite.levels[0].price)
        invariant opposite.Valid() && forall l :: l in opposite.levels ==> l in old(opposite.levels)
        invariant forall o :: o in opposite.queue ==> o in old(opposite.queue)
        invariant Progress(order, opposite.queue, past, goal, trades)
        invariant past + opposite.queue == queue
        invariant cancelMap == index - ObjIds(past)
        decreases |opposite.queue|, order.Remaining()
      {
        assert opposite.levels[0] in opposite.levels;
        assert forall i :: 0 <= i < |opposite.queue| ==> opposite.queue[i] in opposite.queue;
        trades, past := FillBest(order, opposite, trades, past, index, goal);
      }
      SweepDone(order, opposite, past, goal, trades, queue);
    }

    /** Put what is left of an order on its own side. */
    method RestOrder(order: Order, own: LevelMap)
      requires own.Valid() && Absent(order, own.queue)
      requires order.side == own.side && order.symbol == own.symbol && order.price.Some? && order.Remaining() > 0
      modifies this`cancelMap, own, own.levels
      ensures own.Valid() && forall j :: 0 <= j < |own.levels| ==> own.levels[j] in old(own.levels) || fresh(own.levels[j])
      ensures cancelMap == old(cancelMap)[order.id := (order.side, order.Px())]
      ensures var k := RankOf(old(own.queue), own.side, order.Px());
              own.queue == old(own.queue)[..k] + [order] + old(own.queue)[k..]
    {
      own.Rest(order);
      cancelMap := cancelMap[order.id := (order.side, order.price.value)];
    }

    /** Matching leaves the order's own side alone. */
    method MatchPhase(order: Order, own: LevelMap, opposite: LevelMap) returns (trades: seq<Trade>)
      requires own.Valid() && opposite.Valid() && Disjoint(own, opposite, order) && Absent(order, opposite.queue)
      modifies this`cancelMap, order`filled, opposite, opposite.levels, opposite.queue
      ensures own.Valid() && opposite.Valid()
      ensures forall l :: l in opposite.levels ==> l in old(opposite.levels)
      ensures MatchedAs(order, opposite, trades, old(opposite.queue), Match(old(order.Rec()), order.price, old(Recs(opposite.queue))))
      ensures cancelMap == old(cancelMap) - ObjIds(Gone(old(opposite.queue), opposite.queue))
      ensures own.queue == old(own.queue) && own.levels == old(own.levels) && Recs(own.queue) == old(Recs(own.queue))
    {
      hide LevelMap.ValidBut, MatchedAs, Absent, ObjIds, Gone;
      trades := MatchAgainst(order, opposite);
    }

    /** Resting an order leaves the opposite side alone. */
    method RestPhase(order: Order, own: LevelMap, opposite: LevelMap)
      requires own.Valid() && opposite.Valid() && Disjoint(own, opposite, order) && Absent(order, own.queue)
      requires order.side == own.side && order.symbol == own.symbol && order.price.Some? && order.Remaining() > 0
      modifies this`cancelMap, own, own.levels
      ensures own.Valid() && opposite.Valid()
      ensures forall j :: 0 <= j < |own.levels| ==> own.levels[j] in old(own.levels) || fresh(own.levels[j])
      ensures cancelMap == old(cancelMap)[order.id := (order.side, order.Px())]
      ensures var k := RankOf(old(own.queue), own.side, order.Px());
              own.queue == old(own.queue)[..k] + [order] + old(own.queue)[k..]
      ensures opposite.queue == old(opposite.queue) && opposite.levels == old(opposite.levels)
    {
      hide LevelMap.ValidBut, Absent, RankOf;
      RestOrder(order, own);
    }

    /** Status after matching, then the time-in-force policy for what is left. */
    method ApplyPolicy(order: Order) returns (rests: bool)
      modifies order`status
      ensures order.Rec() == Settle(old(order.Rec())) && rests == Rests(old(order.Rec()))
      ensures order.Remaining() == 0 ==> order.status.Filled?
      ensures order.Remaining() > 0 && order.kind.Market? ==> order.status == if order.filled > 0 then PartiallyFilled else old(order.status)
      ensures order.Remaining() > 0 && order.kind.Limit? && (order.tif.IOC? || order.tif.FOK?) ==> order.status.Cancelled?
      ensures order.Remaining() > 0 && order.kind.Limit? && (order.tif.GTC? || order.tif.GTD?) && order.filled >= 0 ==>
                order.status == if order.filled == 0 then Open else PartiallyFilled
    {
      rests := false;
      if order.Remaining() == 0 {
        order.status := Filled;
      } else if order.filled > 0 {
        order.status := PartiallyFilled;
      }
      if order.Remaining() > 0 && order.kind.Limit? {
        match order.tif
        case GTC | GTD =>
          rests := true;
          if order.filled == 0 {
            order.status := Open;
          }
        case IOC =>
          order.status := Cancelled;
        case FOK =>
          order.status := Cancelled;
      }
    }

    /** Matching, with the sweep it makes and the index it leaves. */
    method MatchSide(order: Order, own: LevelMap, opposite: LevelMap) returns (trades: seq<Trade>)
      requires Sides(own, opposite, order.side)
      requires Absent(order, own.queue) && Absent(order, opposite.queue)
      modifies this`cancelMap, order`filled, opposite, opposite.levels, opposite.queue
      ensures Sides(own, opposite, order.side) && Absent(order, opposite.queue)
      ensures Absent(order, Gone(old(opposite.queue), opposite.queue))
      ensures forall l :: l in opposite.levels ==> l in old(opposite.levels)
      ensures own.queue == old(own.queue) && own.levels == old(own.levels) && Recs(own.queue) == old(Recs(own.queue))
      ensures Gone(old(opposite.queue), opposite.queue) + opposite.queue == old(opposite.queue)
      ensures var s := Match(old(order.Rec()), order.price, old(Recs(opposite.queue)));
              SweptTo(s, order.Rec(), trades, Recs(opposite.queue), Recs(Gone(old(opposite.queue), opposite.queue)))
    {
      SidesShareNothing(own, opposite, order);
      ghost var queue := opposite.queue;
      ghost var s := Match(order.Rec(), order.price, Recs(queue));
      hide LevelMap.ValidBut, Absent, Apart, Indexed, MatchedAs, ObjIds, Disjoint, Match;
      trades := MatchPhase(order, own, opposite);
      AfterMatch(order, own, opposite, trades, queue, s, old(cancelMap));
    }

    /** Resting, with the place the order takes and the index it leaves. */
    method RestSide(order: Order, own: LevelMap, opposite: LevelMap)
      requires Sides(own, opposite, order.side) && own.symbol == order.symbol
      requires Absent(order, own.queue) && Absent(order, opposite.queue)
      requires order.price.Some? && order.Remaining() > 0
      modifies this`cancelMap, own, own.levels
      ensures Sides(own, opposite, order.side)
      ensures forall j :: 0 <= j < |own.levels| ==> own.levels[j] in old(own.levels) || fresh(own.levels[j])
      ensures opposite.queue == old(opposite.queue) && opposite.levels == old(opposite.levels)
      ensures Recs(own.queue) == Insert(old(Recs(own.queue)), order.Rec())
      ensures forall o :: o in own.queue ==> o in old(own.queue) || o == order
    {
      hide LevelMap.ValidBut, Absent, Apart, Indexed, Disjoint, RankOf, Insert;
      ghost var queue := own.queue;
      ghost var k := BeforeRest(cancelMap, own, opposite, order);
      RestPhase(order, own, opposite);
      RecsInserted(queue, k, order);
    }

    /** A submission, with the two sides named from the order's point of view. */
    method SubmitTo(order: Order, own: LevelMap, opposite: LevelMap) returns (trades: seq<Trade>, resting: bool)
      requires Sides(own, opposite, order.side) && own.symbol == order.symbol
      requires Absent(order, own.queue) && Absent(order, opposite.queue)
      requires order.kind.Limit? ==> order.price.Some?
      modifies this`cancelMap, order`filled, order`status
      modifies own, own.levels, opposite, opposite.levels, opposite.queue
      ensures Sides(own, opposite, order.side)
      ensures forall j :: 0 <= j < |own.levels| ==> own.levels[j] in old(own.levels) || fresh(own.levels[j])
      ensures forall l :: l in opposite.levels ==> l in old(opposite.levels)
      ensures Gone(old(opposite.queue), opposite.queue) + opposite.queue == old(opposite.queue)
      ensures forall i :: 0 <= i < |old(own.queue)| ==> old(own.queue)[i].Rec() == old(own.queue[i].Rec())
      ensures forall o :: o in own.queue ==> o in old(own.queue) || o == order
      ensures var s := Match(old(order.Rec()), order.price, old(Recs(opposite.queue)));
              && SweptTo(s, s.taker, trades, Recs(opposite.queue), Recs(Gone(old(opposite.queue), opposite.queue)))
              && order.Rec() == Settle(s.taker) && resting == Rests(s.taker)
              && Recs(own.queue) == if resting then Insert(old(Recs(own.queue)), Settle(s.taker)) else old(Recs(own.queue))
    {
      hide OrderBook.Sides, Absent, Match, Settle, LevelMap.ValidBut, Gone;
      ghost var queue := opposite.queue;
      trades := MatchSide(order, own, opposite);
      NotAmong(order, own.queue);
      NotAmong(order, opposite.queue);
      ghost var gone := Gone(queue, opposite.queue);
      NotAmong(order, gone);
      ghost var s := Match(old(order.Rec()), order.price, old(Recs(opposite.queue)));
      ghost var left := opposite.queue;
      assert Recs(gone) == s.done && Recs(left) == s.rest;
      resting := ApplyPolicy(order);
      assert Recs(gone) == s.done && Recs(left) == s.rest;
      if resting {
        RestSide(order, own, opposite);
      }
      assert left == opposite.queue;
    }

    /** The two sides are sound, share no order, and are what the index says. */
    ghost predicate Sides(own: LevelMap, opposite: LevelMap, side: Side)
      reads this, own, own.levels, own.queue`filled, opposite, opposite.levels, opposite.queue`filled
    {
      && own.side == side && opposite.side == side.Opposite() && own.symbol == opposite.symbol
      && own.Valid() && opposite.Valid()
      && Apart(own.queue, opposite.queue)
      && Indexed(cancelMap, own.queue, opposite.queue)
    }

    /** What the book stands for. */
    ghost function View(): Book
      reads this, bids, asks, bids.queue, asks.queue
    {
      Book(symbol, Recs(bids.queue), Recs(asks.queue), sequence)
    }

    ghost predicate Valid()
      reads this, bids, asks, bids.levels, bids.queue`filled, asks.levels, asks.queue`filled
    {
      bids.symbol == symbol && Sides(bids, asks, Buy)
    }

    ghost function Side(side: Side): LevelMap {
      if side.Buy? then bids else asks
    }

    /** Match an order against the opposite side, then apply its time-in-force policy to what is left. */
    method Submit(order: Order) returns (trades: seq<Trade>, resting: bool)
      requires Valid() && order.symbol == symbol
      requires Absent(order, bids.queue) && Absent(order, asks.queue)
      requires order.kind.Limit? ==> order.price.Some?
      modifies this, order`filled, order`status
      modifies bids, bids.levels, bids.queue, asks, asks.levels, asks.queue
      ensures Valid()
      ensures var out := BookSpec.Submit(old(View()), old(order.Rec()), order.price);
              && View() == out.0 && order.Rec() == out.1.order
              && trades == out.1.trades && resting == out.1.resting
              && Recs(Gone(old(Side(order.side.Opposite()).queue), Side(order.side.Opposite()).queue)) == out.1.done
      ensures var was, queue := old(Side(order.side.Opposite()).queue), Side(order.side.Opposite()).queue;
              Gone(was, queue) + queue == was
      ensures var was := old(Side(order.side).queue);
              && (forall i :: 0 <= i < |was| ==> was[i].Rec() == old(was[i].Rec()))
              && forall o :: o in Side(order.side).queue ==> o in was || o == order
    {
      hide LevelMap.ValidBut, Absent, Apart, Indexed, Match, Settle, Rests, Insert;
      sequence := sequence + 1;
      if order.side.Buy? {
        trades, resting := SubmitTo(order, bids, asks);
      } else {
        SidesSwap(this, bids, asks, Buy, order.side);
        trades, resting := SubmitTo(order, asks, bids);
        SidesSwap(this, asks, bids, order.side, Buy);
      }
    }

    /** Withdrawal from one side leaves the other alone. */
    method Pull(own: LevelMap, opposite: LevelMap, id: OrderId, price: Price, ghost at: nat, ghost target: Order) returns (cancelled: Order?)
      requires own.Valid() && opposite.Valid() && Separate(own, opposite)
      requires at < |own.queue| && own.queue[at] == target && target.id == id && target.price == Some(price)
      requires forall i :: 0 <= i < |own.queue| && i != at ==> own.queue[i] != target
      modifies own, own.levels, target`status
      ensures own.Valid() && opposite.Valid() && forall l :: l in own.levels ==> l in old(own.levels)
      ensures cancelled == target && target.status == Cancelled
      ensures own.queue == Without(old(own.queue), at)
      ensures opposite.queue == old(opposite.queue) && opposite.levels == old(opposite.levels)
    {
      hide LevelMap.ValidBut;
      cancelled := own.Withdraw(price, id, at);
      if cancelled != null {
        cancelled.status := Cancelled;
      }
    }

    /** Withdrawal keeps the index exact. */
    method CancelOn(own: LevelMap, opposite: LevelMap, id: OrderId, price: Price, ghost at: nat, ghost target: Order) returns (cancelled: Order?)
      requires Sides(own, opposite, own.side)
      requires at < |own.queue| && own.queue[at] == target && target.id == id && target.price == Some(price)
      modifies this`cancelMap, own, own.levels, target`status
      ensures Sides(own, opposite, own.side) && forall l :: l in own.levels ==> l in old(own.levels)
      ensures cancelled == target && target.status == Cancelled
      ensures Recs(own.queue) == Without(old(Recs(own.queue)), at)
      ensures opposite.levels == old(opposite.levels) && Recs(opposite.queue) == old(Recs(opposite.queue))
      ensures opposite.queue == old(opposite.queue) && forall o :: o in own.queue ==> o in old(own.queue)
    {
      hide LevelMap.ValidBut, Apart, Indexed, Separate, Without;
      ghost var rest := Without(own.queue, at);
      RecsWithout(own.queue, at);
      BeforeCancel(cancelMap, own, opposite, at);
      cancelMap := cancelMap - {id};
      ghost var rs := Recs(rest);
      cancelled := Pull(own, opposite, id, price, at, target);
      assert own.queue == rest && Recs(rest) == rs;
    }

    /** Cancel a resting order by id; null when nothing with that id rests. */
    method Cancel(id: OrderId) returns (cancelled: Order?)
      requires Valid()
      modifies this`cancelMap, bids, bids.levels, bids.queue`status, asks, asks.levels, asks.queue`status
      ensures Valid()
      ensures cancelled != null <==> id in old(ObjIds(bids.queue) + ObjIds(asks.queue))
      ensures cancelled != null ==> cancelled in old(bids.queue) + old(asks.queue) && cancelled.id == id
      ensures forall o :: o in bids.queue ==> o in old(bids.queue)
      ensures forall o :: o in asks.queue ==> o in old(asks.queue)
      ensures forall o :: o in old(bids.queue) && o != cancelled ==> o.Rec() == old(o.Rec())
      ensures forall o :: o in old(asks.queue) && o != cancelled ==> o.Rec() == old(o.Rec())
      ensures (View(), if cancelled == null then None else Some(cancelled.Rec())) == BookSpec.Cancel(old(View()), id)
    {
      hide LevelMap.ValidBut, Apart, Indexed, BookSpec.Cancel, Without, ObjIds, Recs;
      if id !in cancelMap {
        NotIndexed(this, id);
        return null;
      }
      var (side, price) := cancelMap[id];
      ghost var at := PositionOf(this, id);
      CancelView(this, side, at);
      ghost var target := Side(side).queue[at];
      if side.Buy? {
        cancelled := CancelOn(bids, asks, id, price, at, target);
      } else {
        SidesSwap(this, bids, asks, Buy, Sell);
        cancelled := CancelOn(asks, bids, id, price, at, target);
        SidesSwap(this, asks, bids, Sell, Buy);
      }
    }

    /** Depth-limited picture of both sides. */
    method TakeSnapshot(depth: nat) returns (snapshot: Snapshot)
      requires Valid()
      ensures snapshot == BookSpec.TakeSnapshot(View(), depth)
    {
      hide LevelMap.ValidBut, Recs, Levels;
      var bidRows := bids.Rows(depth);
      var askRows := asks.Rows(depth);
      snapshot := Snapshot(symbol, sequence, bidRows, askRows);
    }
  }

  lemma {:induction false} NotIndexed(b: OrderBook, id: OrderId)
    requires b.Valid() && id !in b.cancelMap
    ensures BookSpec.Cancel(b.View(), id) == (b.View(), None)
    ensures id !in ObjIds(b.bids.queue) + ObjIds(b.asks.queue)
  {
    assert id !in ObjIds(b.bids.queue) && id !in ObjIds(b.asks.queue);
    NotFound(Recs(b.bids.queue), id);
    NotFound(Recs(b.asks.queue), id);
  }

  /** The index leads to the order's place in its queue. */
  lemma {:induction false} PositionOf(b: OrderBook, id: OrderId) returns (at: nat)
    requires b.Valid() && id in b.cancelMap
    ensures var queue := b.Side(b.cancelMap[id].0).queue;
            at < |queue| && queue[at].id == id && queue[at].price == Some(b.cancelMap[id].1) && queue[at] in queue
    ensures id in ObjIds(b.bids.queue) + ObjIds(b.asks.queue)
  {
    if id in ObjIds(b.bids.queue) {
      at :| 0 <= at < |b.bids.queue| && b.bids.queue[at].id == id;
    } else {
      at :| 0 <= at < |b.asks.queue| && b.asks.queue[at].id == id;
    }
  }

  lemma {:induction false} CancelView(b: OrderBook, side: Side, at: nat)
    requires b.Valid() && at < |b.Side(side).queue|
    ensures var queue := b.Side(side).queue;
            BookSpec.Cancel(b.View(), queue[at].id)
              == (b.View().WithQueue(side, Without(Recs(queue), at)), Some(AfterCancel(queue[at].Rec())))
  {
    CancelAt(b.View(), side, at);
  }

  ghost predicate Separate(own: LevelMap, opposite: LevelMap)
    reads own, opposite
  {
    && own != opposite
    && (forall i, j :: 0 <= i < |own.levels| && 0 <= j < |opposite.levels| ==> own.levels[i] != opposite.levels[j])
    && (forall i, j :: 0 <= i < |own.queue| && 0 <= j < |opposite.queue| ==> own.queue[i] != opposite.queue[j])
  }

  lemma {:induction false} BeforeCancel(index: map<OrderId, (Side, Price)>, own: LevelMap, opposite: LevelMap, at: nat)
    requires own.Valid() && opposite.Valid() && own.side != opposite.side && at < |own.queue|
    requires Indexed(index, own.queue, opposite.queue) && Apart(own.queue, opposite.queue)
    ensures Separate(own, opposite)
    ensures forall i :: 0 <= i < |own.queue| && i != at ==> own.queue[i] != own.queue[at]
    ensures forall i :: 0 <= i < |opposite.queue| ==> opposite.queue[i] != own.queue[at]
    ensures var own' := Without(own.queue, at);
            && Indexed(index - {own.queue[at].id}, own', opposite.queue) && Apart(own', opposite.queue)
            && forall i :: 0 <= i < |own'| ==> own'[i] != own.queue[at]
  {
    IndexDrops(index, own.queue, opposite.queue, at);
  }

  lemma {:induction false} RecsWithout(queue: seq<Order>, at: nat)
    requires at < |queue|
    ensures Recs(Without(queue, at)) == Without(Recs(queue), at)
    ensures forall o :: o in Without(queue, at) ==> o in queue
  {
  }

  lemma {:induction false} IdsWithout(queue: seq<Order>, at: nat)
    requires at < |queue| && DistinctIds(queue)
    ensures ObjIds(Without(queue, at)) == ObjIds(queue) - {queue[at].id}
  {
    var rest := Without(queue, at);
    IdsInserted(rest, at, queue[at]);
    assert rest[..at] + [queue[at]] + rest[at..] == queue;
    assert forall i :: 0 <= i < |rest| ==> rest[i] == if i < at then queue[i] else queue[i + 1];
  }

  /** An order leaves its queue and the index together. */
  lemma {:induction false} IndexDrops(index: map<OrderId, (Side, Price)>, own: seq<Order>, other: seq<Order>, at: nat)
    requires at < |own| && Indexed(index, own, other) && Apart(own, other) && DistinctIds(own)
    ensures var own' := Without(own, at);
            Indexed(index - {own[at].id}, own', other) && Apart(own', other)
            && forall i :: 0 <= i < |own'| ==> own'[i] != own[at]
  {
    IdsWithout(own, at);
    assert own[at].id !in ObjIds(other);
    hide ObjIds;
  }

  /** The index maps every queued order to its true side and price. */
  ghost predicate IndexedSide(index: map<OrderId, (Side, Price)>, queue: seq<Order>) {
    forall i :: 0 <= i < |queue| ==> queue[i].id in index && index[queue[i].id] == (queue[i].side, queue[i].Px())
  }

  lemma {:induction false} IdsSplit(a: seq<Order>, b: seq<Order>)
    ensures ObjIds(a + b) == ObjIds(a) + ObjIds(b)
  {
    forall id | id in ObjIds(a) + ObjIds(b)
      ensures id in ObjIds(a + b)
    {
      if id in ObjIds(a) {
        var o :| o in a && o.id == id;
        assert o in a + b;
      } else {
        var o :| o in b && o.id == id;
        assert o in a + b;
      }
    }
  }

  /** Makers leave the front of the queue and the index together. */
  lemma {:induction false} IndexLoses(index: map<OrderId, (Side, Price)>, own: seq<Order>, queue: seq<Order>, n: nat)
    requires n <= |queue| && Indexed(index, own, queue) && Apart(own, queue) && DistinctIds(queue)
    ensures Indexed(index - ObjIds(queue[..n]), own, queue[n..]) && Apart(own, queue[n..])
  {
    IdsSplit(queue[..n], queue[n..]);
    assert queue[..n] + queue[n..] == queue;
  }

  lemma {:induction false} IdsInserted(queue: seq<Order>, k: nat, order: Order)
    requires k <= |queue|
    ensures ObjIds(queue[..k] + [order] + queue[k..]) == ObjIds(queue) + {order.id}
  {
    IdsSplit(queue[..k] + [order], queue[k..]);
    IdsSplit(queue[..k], [order]);
    IdsSplit(queue[..k], queue[k..]);
    assert queue[..k] + queue[k..] == queue;
  }

  /** An order enters its queue and the index together. */
  lemma {:induction false} IndexGains(index: map<OrderId, (Side, Price)>, own: seq<Order>, other: seq<Order>, k: nat, order: Order)
    requires k <= |own| && Indexed(index, own, other) && Apart(own, other)
    requires Absent(order, own) && Absent(order, other)
    ensures var own' := own[..k] + [order] + own[k..];
            Indexed(index[order.id := (order.side, order.Px())], own', other) && Apart(own', other)
  {
    var own' := own[..k] + [order] + own[k..];
    hide ObjIds;
    IdsInserted(own, k, order);
    forall i | 0 <= i < |own'|
      ensures own'[i] == order || own'[i] in own
    {
      assert own'[i] == if i < k then own[i] else if i == k then order else own[i - 1];
    }
  }

  lemma {:induction false} NotAmong(order: Order, queue: seq<Order>)
    requires Absent(order, queue)
    ensures forall i :: 0 <= i < |queue| ==> queue[i] != order
  {
  }

  lemma {:induction false} RecsConcat(a: seq<Order>, b: seq<Order>)
    ensures Recs(a + b) == Recs(a) + Recs(b)
  {
  }

  lemma {:induction false} RecsInserted(queue: seq<Order>, k: nat, order: Order)
    requires order.price.Some? && k == RankOf(queue, order.side, order.Px())
    ensures Recs(queue[..k] + [order] + queue[k..]) == Insert(Recs(queue), order.Rec())
  {
    hide RankOf, Rank, Recs;
    RankOfRecs(queue, order.side, order.Px());
    RecsConcat(queue[..k] + [order], queue[k..]);
    RecsConcat(queue[..k], [order]);
    RecsConcat(queue[..k], queue[k..]);
    assert queue[..k] + queue[k..] == queue;
    assert Recs([order]) == [order.Rec()];
  }

  lemma {:induction false} BeforeRest(index: map<OrderId, (Side, Price)>, own: LevelMap, opposite: LevelMap, order: Order) returns (k: nat)
    requires own.Valid() && opposite.Valid() && own.side == order.side && opposite.side == order.side.Opposite()
    requires Absent(order, own.queue) && Absent(order, opposite.queue)
    requires Indexed(index, own.queue, opposite.queue) && Apart(own.queue, opposite.queue)
    ensures k == RankOf(own.queue, own.side, order.Px())
    ensures Disjoint(own, opposite, order)
    ensures var own' := own.queue[..k] + [order] + own.queue[k..];
            Indexed(index[order.id := (order.side, order.Px())], own', opposite.queue) && Apart(own', opposite.queue)
  {
    SidesShareNothing(own, opposite, order);
    k := RankOf(own.queue, own.side, order.Px());
    IndexGains(index, own.queue, opposite.queue, k, order);
  }

  lemma {:induction false} SidesSwap(b: OrderBook, own: LevelMap, opposite: LevelMap, side: Side, other: Side)
    requires b.Sides(own, opposite, side) && other != side
    ensures b.Sides(opposite, own, other)
  {
  }

  ghost predicate Disjoint(own: LevelMap, opposite: LevelMap, order: Order)
    reads own, opposite
  {
    && own != opposite
    && (forall i, j :: 0 <= i < |own.levels| && 0 <= j < |opposite.levels| ==> own.levels[i] != opposite.levels[j])
    && (forall i, j :: 0 <= i < |own.queue| && 0 <= j < |opposite.queue| ==> own.queue[i] != opposite.queue[j])
    && (forall i :: 0 <= i < |own.queue| ==> own.queue[i] != order)
  }

  lemma {:induction false} SidesShareNothing(own: LevelMap, opposite: LevelMap, order: Order)
    requires own.Valid() && opposite.Valid() && own.side != opposite.side
    requires Absent(order, own.queue) && Absent(order, opposite.queue)
    ensures Disjoint(own, opposite, order) && DistinctIds(opposite.queue)
  {
  }

  /** What matching leaves true of the two sides and the index. */
  lemma {:induction false} AfterMatch(order: Order, own: LevelMap, opposite: LevelMap, trades: seq<Trade>,
                                      queue: seq<Order>, s: Sweep, index: map<OrderId, (Side, Price)>)
    requires MatchedAs(order, opposite, trades, queue, s)
    requires Indexed(index, own.queue, queue) && Apart(own.queue, queue) && DistinctIds(queue)
    requires Absent(order, queue)
    ensures Indexed(index - ObjIds(Gone(queue, opposite.queue)), own.queue, opposite.queue)
    ensures Apart(own.queue, opposite.queue) && Absent(order, opposite.queue)
    ensures Absent(order, Gone(queue, opposite.queue))
    ensures SweptTo(s, order.Rec(), trades, Recs(opposite.queue), Recs(Gone(queue, opposite.queue)))
    ensures Gone(queue, opposite.queue) + opposite.queue == queue
  {
    hide Indexed, Apart, ObjIds, Recs, DistinctIds, Absent;
    var n := |s.done|;
    IndexLoses(index, own.queue, queue, n);
    assert Gone(queue, opposite.queue) == queue[..n];
    AbsentParts(order, queue, n);
    RecsSplit(queue, n);
    assert s.done == (s.done + s.rest)[..n] && s.rest == (s.done + s.rest)[n..];
  }

  lemma {:induction false} AbsentParts(order: Order, queue: seq<Order>, n: nat)
    requires n <= |queue| && Absent(order, queue)
    ensures Absent(order, queue[..n]) && Absent(order, queue[n..])
  {
  }

  lemma {:induction false} RecsSplit(queue: seq<Order>, n: nat)
    requires n <= |queue|
    ensures Recs(queue)[..n] == Recs(queue[..n]) && Recs(queue)[n..] == Recs(queue[n..])
  {
  }

  /** A sweep has been carried out. */
  ghost predicate SweptTo(s: Sweep, taker: OrderRec, trades: seq<Trade>, rest: seq<OrderRec>, done: seq<OrderRec>) {
    taker == s.taker && trades == s.trades && rest == s.rest && done == s.done
  }

  /** The index holds exactly the resting orders. */
  ghost predicate Indexed(index: map<OrderId, (Side, Price)>, bids: seq<Order>, asks: seq<Order>) {
    IndexedSide(index, bids) && IndexedSide(index, asks) && index.Keys == ObjIds(bids) + ObjIds(asks)
  }
}
