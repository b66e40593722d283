/** What the engine neither creates nor loses, over any run of calls. */
module Conservation {
  import opened Domain
  import opened BookSpec
  import opened BookRuns
  import opened EngineSpec
  import opened EngineRuns

  // ---------- sums over the admitted orders ----------

  function SumOf(ids: seq<OrderId>, f: OrderId -> int): int {
    if ids == [] then 0 else f(ids[0]) + SumOf(ids[1..], f)
  }

  lemma {:induction false} SameSum(ids: seq<OrderId>, f: OrderId -> int, g: OrderId -> int)
    requires forall i :: 0 <= i < |ids| ==> f(ids[i]) == g(ids[i])
    ensures SumOf(ids, f) == SumOf(ids, g)
  {
    if ids != [] {
      SameSum(ids[1..], f, g);
    }
  }

  lemma {:induction false} SumAdds(ids: seq<OrderId>, f: OrderId -> int, g: OrderId -> int, h: OrderId -> int)
    requires forall i :: 0 <= i < |ids| ==> h(ids[i]) == f(ids[i]) + g(ids[i])
    ensures SumOf(ids, h) == SumOf(ids, f) + SumOf(ids, g)
  {
    if ids != [] {
      SumAdds(ids[1..], f, g, h);
    }
  }

  lemma {:induction false} SumZero(ids: seq<OrderId>, f: OrderId -> int)
    requires forall i :: 0 <= i < |ids| ==> f(ids[i]) == 0
    ensures SumOf(ids, f) == 0
  {
    if ids != [] {
      SumZero(ids[1..], f);
    }
  }

  /** A sum with one term. */
  lemma {:induction false} SumSingle(ids: seq<OrderId>, f: OrderId -> int, x: OrderId)
    requires x in ids && (forall i, j :: 0 <= i < j < |ids| ==> ids[i] != ids[j])
    requires forall i :: 0 <= i < |ids| && ids[i] != x ==> f(ids[i]) == 0
    ensures SumOf(ids, f) == f(x)
  {
    if ids[0] == x {
      SumZero(ids[1..], f);
    } else {
      SumSingle(ids[1..], f, x);
    }
  }

  // ---------- both sides of every trade ----------

  function FilledOn(orders: map<OrderId, OrderRec>, side: Side, id: OrderId): int {
    if id in orders && orders[id].side == side then orders[id].filled else 0
  }

  function NamedOn(orders: map<OrderId, OrderRec>, side: Side, log: seq<Trade>, id: OrderId): int {
    if id in orders && orders[id].side == side then Named(log, id) else 0
  }

  /** The order on `side` of a trade. */
  function Party(t: Trade, side: Side): OrderId {
    if t.aggressor == side then t.taker else t.maker
  }

  /** Counting trades by the orders on one side counts every trade once. */
  lemma {:induction false} EachTradeOnce(orders: map<OrderId, OrderRec>, ids: seq<OrderId>, side: Side, log: seq<Trade>)
    requires (forall i, j :: 0 <= i < j < |ids| ==> ids[i] != ids[j]) && forall id :: id in orders ==> id in ids
    requires forall i :: 0 <= i < |log| ==> TradeOk(log[i], orders)
    ensures SumOf(ids, id => NamedOn(orders, side, log, id)) == TradedQuantity(log)
    decreases |log|
  {
    var all := id => NamedOn(orders, side, log, id);
    if log == [] {
      SumZero(ids, all);
    } else {
      var first := id => NamedOn(orders, side, [log[0]], id);
      var rest := id => NamedOn(orders, side, log[1..], id);
      EachTradeOnce(orders, ids, side, log[1..]);
      forall id
        ensures all(id) == first(id) + rest(id)
      {
        NamedFirst(log, id);
      }
      SumAdds(ids, first, rest, all);
      OneTrade(orders, side, log[0]);
      SumSingle(ids, first, Party(log[0], side));
    }
  }

  lemma {:induction false} NamedFirst(log: seq<Trade>, id: OrderId)
    requires log != []
    ensures Named(log, id) == Named([log[0]], id) + Named(log[1..], id)
  {
    assert [log[0]][1..] == [];
  }

  /** A trade names one order on each side. */
  lemma {:induction false} OneTrade(orders: map<OrderId, OrderRec>, side: Side, t: Trade)
    requires TradeOk(t, orders)
    ensures Party(t, side) in orders && NamedOn(orders, side, [t], Party(t, side)) == t.quantity
    ensures forall id :: id != Party(t, side) ==> NamedOn(orders, side, [t], id) == 0
  {
    assert [t][1..] == [];
    forall id
      ensures Named([t], id) == if t.maker == id || t.taker == id then t.quantity else 0
    {
    }
    assert orders[Party(t, side)].side == side;
    assert orders[Party(t, side.Opposite())].side == side.Opposite();
  }

  /** Over any run, filled buys, filled sells, the reported volume and the trades all agree. */
  lemma {:induction false} FillsBalance(backend: Backend, calls: seq<Call>)
    requires NewOrders(calls)
    ensures var w := Played(backend, Start(), calls);
            && SumOf(w.admitted, id => FilledOn(w.engine.orders, Buy, id)) == TradedQuantity(w.log)
            && SumOf(w.admitted, id => FilledOn(w.engine.orders, Sell, id)) == TradedQuantity(w.log)
            && w.engine.stats.volume == TradedQuantity(w.log) && w.engine.stats.executed == |w.log|
  {
    StartGood();
    PlayedGood(backend, Start(), calls);
    var w := Played(backend, Start(), calls);
    SideBalance(w, Buy);
    SideBalance(w, Sell);
    hide BooksOk, OrdersOk, Accounted, LogOk, Played;
  }

  lemma {:induction false} SideBalance(w: World, side: Side)
    requires Good(w)
    ensures SumOf(w.admitted, id => FilledOn(w.engine.orders, side, id)) == TradedQuantity(w.log)
  {
    hide BooksOk, OrdersOk, Accounted, LogOk, Sane, TradeOk, Named;
    OrdersSane(w);
    EachTradeOnce(w.engine.orders, w.admitted, side, w.log);
    SameSum(w.admitted, id => FilledOn(w.engine.orders, side, id), id => NamedOn(w.engine.orders, side, w.log, id));
  }

  // ---------- every accepted share is filled, resting or left over ----------

  function AcceptedIn(orders: map<OrderId, OrderRec>, symbol: Symbol, id: OrderId): int {
    if id in orders && orders[id].symbol == symbol then orders[id].quantity else 0
  }

  function FilledIn(orders: map<OrderId, OrderRec>, symbol: Symbol, id: OrderId): int {
    if id in orders && orders[id].symbol == symbol then orders[id].filled else 0
  }

  /** What was cancelled, or left of a market, immediate-or-cancel or fill-or-kill order. */
  function ResidualIn(orders: map<OrderId, OrderRec>, symbol: Symbol, id: OrderId): int {
    if id in orders && orders[id].symbol == symbol && !ShouldRest(orders[id]) then orders[id].Remaining() else 0
  }

  function RestingIn(queue: seq<OrderRec>, id: OrderId): int {
    var r := Find(queue, id);
    if r.Some? then r.value.Remaining() else 0
  }

  lemma {:induction false} VolumeByIds(queue: seq<OrderRec>, ids: seq<OrderId>)
    requires BookRuns.DistinctIds(queue) && (forall i, j :: 0 <= i < j < |ids| ==> ids[i] != ids[j])
    requires forall i :: 0 <= i < |queue| ==> queue[i].id in ids
    ensures SumOf(ids, id => RestingIn(queue, id)) == Volume(queue)
  {
    var all := id => RestingIn(queue, id);
    if queue == [] {
      SumZero(ids, all);
    } else {
      var first := id => if id == queue[0].id then queue[0].Remaining() else 0;
      var rest := id => RestingIn(queue[1..], id);
      VolumeByIds(queue[1..], ids);
      NotInTail(queue);
      SumAdds(ids, first, rest, all);
      SumSingle(ids, first, queue[0].id);
    }
  }

  lemma {:induction false} NotInTail(queue: seq<OrderRec>)
    requires BookRuns.DistinctIds(queue) && queue != []
    ensures Find(queue[1..], queue[0].id).None?
  {
    assert queue[0].id !in Ids(queue[1..]);
  }

  lemma {:induction false} NothingLost(backend: Backend, calls: seq<Call>, symbol: Symbol)
    requires NewOrders(calls) && symbol in Played(backend, Start(), calls).engine.books
    ensures var w := Played(backend, Start(), calls);
            var orders, book := w.engine.orders, w.engine.books[symbol];
            SumOf(w.admitted, id => AcceptedIn(orders, symbol, id))
              == SumOf(w.admitted, id => FilledIn(orders, symbol, id))
                 + Volume(book.bids) + Volume(book.asks)
                 + SumOf(w.admitted, id => ResidualIn(orders, symbol, id))
  {
    StartGood();
    PlayedGood(backend, Start(), calls);
    hide Played, Good;
    Partition(Played(backend, Start(), calls), symbol);
  }

  lemma {:induction false} Partition(w: World, symbol: Symbol)
    requires Good(w) && symbol in w.engine.books
    ensures var orders, book := w.engine.orders, w.engine.books[symbol];
            SumOf(w.admitted, id => AcceptedIn(orders, symbol, id))
              == SumOf(w.admitted, id => FilledIn(orders, symbol, id))
                 + Volume(book.bids) + Volume(book.asks)
                 + SumOf(w.admitted, id => ResidualIn(orders, symbol, id))
  {
    var orders, book := w.engine.orders, w.engine.books[symbol];
    QueueVolume(w, symbol);
    forall id
      ensures AcceptedIn(orders, symbol, id) == FilledIn(orders, symbol, id) + ResidualIn(orders, symbol, id)
                                               + RestingIn(book.bids, id) + RestingIn(book.asks, id)
    {
      Parts(w, symbol, id);
    }
    hide Good;
    var f, r := id => FilledIn(orders, symbol, id), id => ResidualIn(orders, symbol, id);
    var b, a := id => RestingIn(book.bids, id), id => RestingIn(book.asks, id);
    var fr, ba := id => f(id) + r(id), id => b(id) + a(id);
    SumAdds(w.admitted, f, r, fr);
    SumAdds(w.admitted, b, a, ba);
    SumAdds(w.admitted, fr, ba, id => AcceptedIn(orders, symbol, id));
  }

  lemma {:induction false} QueueVolume(w: World, symbol: Symbol)
    requires Good(w) && symbol in w.engine.books
    ensures SumOf(w.admitted, id => RestingIn(w.engine.books[symbol].bids, id)) == Volume(w.engine.books[symbol].bids)
    ensures SumOf(w.admitted, id => RestingIn(w.engine.books[symbol].asks, id)) == Volume(w.engine.books[symbol].asks)
  {
    BookGood(w, symbol);
    SideFacts(BookState(w, symbol), Buy);
    hide BooksOk, Inv, Accounted, LogOk, OrdersOk;
    VolumeByIds(w.engine.books[symbol].bids, w.admitted);
    VolumeByIds(w.engine.books[symbol].asks, w.admitted);
  }

  /** One order's share of the partition. */
  lemma {:induction false} Parts(w: World, symbol: Symbol, id: OrderId)
    requires Good(w) && symbol in w.engine.books
    ensures var orders, book := w.engine.orders, w.engine.books[symbol];
            AcceptedIn(orders, symbol, id) == FilledIn(orders, symbol, id) + ResidualIn(orders, symbol, id)
                                             + RestingIn(book.bids, id) + RestingIn(book.asks, id)
  {
    RestsIff(w, symbol, id);
    hide Good, ShouldRest;
  }

  /**
   An order rests in its book exactly when its status says so: open, or partly
   filled and not a market order. It rests on one side only, in its present state.
   */
  lemma {:induction false} RestsIff(w: World, symbol: Symbol, id: OrderId)
    requires Good(w) && symbol in w.engine.books
    ensures var orders, book := w.engine.orders, w.engine.books[symbol];
            var b, a := Find(book.bids, id), Find(book.asks, id);
            && (b.Some? || a.Some? <==> id in orders && orders[id].symbol == symbol && ShouldRest(orders[id]))
            && !(b.Some? && a.Some?)
            && (b.Some? ==> b.value == orders[id]) && (a.Some? ==> a.value == orders[id])
  {
    BookGood(w, symbol);
    var s := BookState(w, symbol);
    var book := s.book;
    SideFacts(s, Buy);
    hide Good, Inv;
    if Find(book.bids, id).Some? {
      FoundPresent(Buy, symbol, book.bids, w.engine.orders, id);
      ApartIds(book.bids, book.asks, id);
    } else if Find(book.asks, id).Some? {
      FoundPresent(Sell, symbol, book.asks, w.engine.orders, id);
    }
  }

  /** A cancellation succeeds exactly on an order whose status says it rests. */
  lemma {:induction false} CancelSucceedsIff(backend: Backend, calls: seq<Call>, id: OrderId)
    requires NewOrders(calls)
    ensures var e := Played(backend, Start(), calls).engine;
            && (CancelOrder(e, id).1.Some? <==> id in e.orders && ShouldRest(e.orders[id]))
            && (CancelOrder(e, id).1.Some? ==> CancelOrder(e, id).1.value == AfterCancel(e.orders[id]))
  {
    StartGood();
    PlayedGood(backend, Start(), calls);
    hide Good, Played, CancelOrder;
    var w := Played(backend, Start(), calls);
    CancelIs(w, id);
    CancelWhen(w, id);
  }

  lemma {:induction false} StillQueued(queue: seq<OrderRec>, r: OrderRec)
    ensures Find(Restamped(queue, r), r.id).Some? <==> Find(queue, r.id).Some?
  {
    if queue != [] && queue[0].id != r.id {
      StillQueued(queue[1..], r);
      assert Restamped(queue, r)[1..] == Restamped(queue[1..], r);
    }
  }

  /**
   Submitting an order object a second time marks it rejected, but one that rested
   still does, and can still be cancelled: its status tells the truth exactly if it
   did not rest.
   */
  lemma {:induction false} ResubmissionHidesIff(calls: seq<Call>, id: OrderId)
    requires NewOrders(calls) && id in Played(Python, Start(), calls).engine.orders
    ensures var e := Played(Python, Start(), calls).engine;
            var e' := Resubmit(e, id).0;
            && e'.orders[id] == e.orders[id].(status := Rejected) && !ShouldRest(e'.orders[id])
            && (CancelOrder(e', id).1.Some? <==> ShouldRest(e.orders[id]))
            && ((CancelOrder(e', id).1.Some? <==> ShouldRest(e'.orders[id])) <==> !ShouldRest(e.orders[id]))
  {
    CancelSucceedsIff(Python, calls, id);
    hide Played, Restamped, Refresh;
    var e := Played(Python, Start(), calls).engine;
    var r := e.orders[id].(status := Rejected);
    StartGood();
    PlayedGood(Python, Start(), calls);
    OrderIds(Played(Python, Start(), calls));
    hide Good;
    if r.symbol in e.books {
      StillQueued(e.books[r.symbol].bids, r);
      StillQueued(e.books[r.symbol].asks, r);
    }
  }

  lemma {:induction false} OrderIds(w: World)
    requires Good(w)
    ensures forall id :: id in w.engine.orders ==> w.engine.orders[id].id == id
  {
    hide BooksOk, Accounted, LogOk, AdmittedOk;
  }

  lemma {:induction false} CancelWhen(w: World, id: OrderId)
    requires Good(w)
    ensures CancelOrder(w.engine, id).1.Some? <==> id in w.engine.orders && ShouldRest(w.engine.orders[id])
  {
    if id in w.engine.orders {
      var symbol := w.engine.orders[id].symbol;
      assert symbol in w.engine.books;
      RestsIff(w, symbol, id);
      hide Good, ShouldRest, Refresh;
    }
  }
}
