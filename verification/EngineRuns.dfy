/** What stays true of the engine over whole runs: the order map, conservation and the counters. */
module EngineRuns {
  import opened Domain
  import opened BookSpec
  import opened MatchTheory
  import opened BookRuns
  import opened EngineSpec

  datatype Call = Register(symbol: Symbol) | Submission(order: OrderRec) | Cancellation(id: OrderId)

  /**
   An engine with its history: arrival numbers, the ids admitted in that order, and
   every trade reported so far.
   */
  datatype World = World(engine: Engine, arrival: map<OrderId, nat>, admitted: seq<OrderId>, log: seq<Trade>)

  function BookState(w: World, symbol: Symbol): State
    requires symbol in w.engine.books
  {
    State(w.engine.books[symbol], w.arrival, |w.admitted|)
  }

  /** Submitted orders come new; the engine itself checks everything else. */
  predicate NewOrder(call: Call) {
    call.Submission? ==> call.order.filled == 0 && call.order.status == Pending
  }

  function Next(backend: Backend, w: World, call: Call): World {
    match call
    case Register(symbol) => w.(engine := RegisterSymbol(backend, w.engine, symbol))
    case Submission(order) =>
      var (e, out) := SubmitOrder(backend, w.engine, order);
      if out.rejection.Some? then w.(engine := e)
      else World(e, w.arrival[order.id := |w.admitted|], w.admitted + [order.id], w.log + out.trades)
    case Cancellation(id) => w.(engine := CancelOrder(w.engine, id).0)
  }

  function Played(backend: Backend, w: World, calls: seq<Call>): World
    decreases |calls|
  {
    if calls == [] then w else Played(backend, Next(backend, w, calls[0]), calls[1..])
  }

  function Start(): World { World(EmptyEngine(), map[], [], []) }

  // ---------- the order map ----------

  /** Whether an order with this record rests; market orders never do. */
  predicate ShouldRest(r: OrderRec) {
    r.status.Open? || (r.status.PartiallyFilled? && r.kind.Limit?)
  }

  /** The status machine's states, as the engine can reach them. */
  predicate Sane(r: OrderRec) {
    && 0 <= r.filled <= r.quantity && r.quantity > 0
    && (r.status.Filled? <==> r.filled == r.quantity)
    && (r.status.PartiallyFilled? ==> r.filled > 0)
    && (r.status.Pending? ==> r.kind.Market? && r.filled == 0)
    && (r.status.Open? ==> r.kind.Limit? && r.filled == 0)
    && !r.status.Rejected?
  }

  /** One side of a book holds orders of the map in their present state. */
  ghost predicate Present(queue: seq<OrderRec>, orders: map<OrderId, OrderRec>) {
    forall i :: 0 <= i < |queue| ==> queue[i].id in orders && orders[queue[i].id] == queue[i]
  }

  /** Every order of this instrument that should rest does, in one of the two queues. */
  ghost predicate Complete(own: seq<OrderRec>, opposite: seq<OrderRec>, orders: map<OrderId, OrderRec>, symbol: Symbol) {
    forall id :: id in orders && orders[id].symbol == symbol && ShouldRest(orders[id]) ==> id in Ids(own) + Ids(opposite)
  }

  /** The book's queues hold exactly the orders that should rest, in their present state. */
  ghost predicate Mirrors(book: Book, orders: map<OrderId, OrderRec>, symbol: Symbol) {
    Present(book.bids, orders) && Present(book.asks, orders) && Complete(book.bids, book.asks, orders, symbol)
  }

  ghost predicate BooksOk(w: World) {
    forall symbol :: symbol in w.engine.books ==>
      && w.engine.books[symbol].symbol == symbol
      && Inv(BookState(w, symbol))
      && Mirrors(w.engine.books[symbol], w.engine.orders, symbol)
  }

  ghost predicate OrdersOk(w: World) {
    && w.arrival.Keys == w.engine.orders.Keys
    && (forall id :: id in w.engine.orders ==>
          w.engine.orders[id].id == id && w.engine.orders[id].symbol in w.engine.books && Sane(w.engine.orders[id]))
  }

  // ---------- trades against orders ----------

  /** Quantity of the trades naming an order, as maker or taker. */
  function Named(log: seq<Trade>, id: OrderId): int {
    if log == [] then 0
    else (if log[0].maker == id || log[0].taker == id then log[0].quantity else 0) + Named(log[1..], id)
  }

  ghost predicate Accounted(w: World) {
    forall id :: id in w.engine.orders ==> w.engine.orders[id].filled == Named(w.log, id)
  }

  predicate TradeOk(t: Trade, orders: map<OrderId, OrderRec>) {
    && t.quantity > 0
    && t.maker in orders && orders[t.maker].side == t.aggressor.Opposite() && orders[t.maker].symbol == t.symbol
    && t.taker in orders && orders[t.taker].side == t.aggressor && orders[t.taker].symbol == t.symbol
  }

  ghost predicate LogOk(w: World) {
    forall i :: 0 <= i < |w.log| ==> TradeOk(w.log[i], w.engine.orders)
  }

  ghost predicate AdmittedOk(w: World) {
    && (forall i, j :: 0 <= i < j < |w.admitted| ==> w.admitted[i] != w.admitted[j])
    && (forall i :: 0 <= i < |w.admitted| ==> w.admitted[i] in w.engine.orders)
    && (forall id :: id in w.engine.orders ==> id in w.admitted)
    && w.engine.stats.volume == TradedQuantity(w.log) && w.engine.stats.executed == |w.log|
  }

  ghost predicate Good(w: World) {
    BooksOk(w) && OrdersOk(w) && Accounted(w) && LogOk(w) && AdmittedOk(w)
  }

  // ---------- one sweep, order by order ----------

  /** Makers are changed in place: the first ones by their trades, the others not at all. */
  ghost predicate ChangesAre(taker: OrderRec, queue: seq<OrderRec>, m: Sweep) {
    && |m.done + m.rest| == |queue| && |m.trades| <= |queue|
    && (forall i :: 0 <= i < |m.trades| ==> m.trades[i] == TradeOf(taker, queue[i], m.trades[i].quantity))
    && (forall i :: 0 <= i < |m.trades| ==> 0 < m.trades[i].quantity <= queue[i].Remaining())
    && (forall i :: 0 <= i < |m.trades| ==> (m.done + m.rest)[i] == AfterFill(queue[i], m.trades[i].quantity))
    && (forall i :: |m.trades| <= i < |queue| ==> (m.done + m.rest)[i] == queue[i])
  }

  lemma {:induction false} ChangedAt(taker: OrderRec, bound: Option<Price>, queue: seq<OrderRec>)
    requires Positive(queue)
    ensures ChangesAre(taker, queue, Match(taker, bound, queue))
  {
    hide Match, AfterFill, TakerPaid, RespectsLimit;
    var m := Match(taker, bound, queue);
    MatchIsSweep(taker, bound, queue);
    var all, n := m.done + m.rest, |m.done|;
    assert |all| == |queue|;
    forall i | 0 <= i < |m.trades|
      ensures m.trades[i] == TradeOf(taker, queue[i], m.trades[i].quantity) && 0 < m.trades[i].quantity <= queue[i].Remaining()
      ensures all[i] == AfterFill(queue[i], m.trades[i].quantity)
    {
      assert i < n ==> all[i] == m.done[i];
      assert i == n ==> all[i] == m.rest[0];
    }
    forall i | |m.trades| <= i < |queue|
      ensures all[i] == queue[i]
    {
      assert all[i] == m.rest[i - n];
    }
  }

  lemma {:induction false} FindAt(queue: seq<OrderRec>, i: nat)
    requires BookRuns.DistinctIds(queue) && i < |queue|
    ensures Find(queue, queue[i].id) == Some(queue[i])
  {
    RemoveAt(queue, i);
  }

  lemma {:induction false} NamedNone(log: seq<Trade>, id: OrderId)
    requires forall i :: 0 <= i < |log| ==> log[i].maker != id && log[i].taker != id
    ensures Named(log, id) == 0
  {
    if log != [] {
      NamedNone(log[1..], id);
    }
  }

  lemma {:induction false} NamedConcat(a: seq<Trade>, b: seq<Trade>, id: OrderId)
    ensures Named(a + b, id) == Named(a, id) + Named(b, id)
  {
    if a == [] {
      assert a + b == b;
    } else {
      assert (a + b)[1..] == a[1..] + b;
      NamedConcat(a[1..], b, id);
    }
  }

  lemma {:induction false} NamedTaker(log: seq<Trade>, id: OrderId)
    requires forall i :: 0 <= i < |log| ==> log[i].taker == id
    ensures Named(log, id) == TradedQuantity(log)
  {
    if log != [] {
      NamedTaker(log[1..], id);
    }
  }

  /** An order named by one trade only is owed that trade's quantity. */
  lemma {:induction false} NamedOnce(log: seq<Trade>, id: OrderId, k: nat)
    requires k < |log| && log[k].maker == id
    requires forall i :: 0 <= i < |log| ==> log[i].taker != id && (i != k ==> log[i].maker != id)
    ensures Named(log, id) == log[k].quantity
  {
    NamedNone(log[..k], id);
    NamedNone(log[k + 1..], id);
    assert log == log[..k] + ([log[k]] + log[k + 1..]);
    NamedConcat(log[..k], [log[k]] + log[k + 1..], id);
    assert ([log[k]] + log[k + 1..])[1..] == log[k + 1..];
  }

  /** What a sweep's trades say of any order. */
  lemma {:induction false} NamedInSweep(taker: OrderRec, bound: Option<Price>, queue: seq<OrderRec>)
    requires Positive(queue) && BookRuns.DistinctIds(queue) && forall i :: 0 <= i < |queue| ==> queue[i].id != taker.id
    ensures var m := Match(taker, bound, queue);
            && Named(m.trades, taker.id) == TradedQuantity(m.trades)
            && (forall i :: 0 <= i < |queue| ==> Named(m.trades, queue[i].id) == (if i < |m.trades| then m.trades[i].quantity else 0))
            && (forall id :: id !in Ids(queue) && id != taker.id ==> Named(m.trades, id) == 0)
  {
    ChangedAt(taker, bound, queue);
    var m := Match(taker, bound, queue);
    hide Match, Named, AfterFill;
    NamedTaker(m.trades, taker.id);
    forall i | 0 <= i < |queue|
      ensures Named(m.trades, queue[i].id) == (if i < |m.trades| then m.trades[i].quantity else 0)
    {
      assert forall j :: 0 <= j < |m.trades| ==> m.trades[j].maker == queue[j].id && m.trades[j].taker == taker.id;
      if i < |m.trades| {
        NamedOnce(m.trades, queue[i].id, i);
      } else {
        NamedNone(m.trades, queue[i].id);
      }
    }
    forall id | id !in Ids(queue) && id != taker.id
      ensures Named(m.trades, id) == 0
    {
      assert forall j :: 0 <= j < |m.trades| ==> m.trades[j].maker in Ids(queue) && m.trades[j].taker == taker.id;
      NamedNone(m.trades, id);
    }
  }

  // ---------- what a submission does to the order map ----------

  /** The order map after a sweep of `queue`: its makers moved on, the newcomer entered, the rest untouched. */
  ghost predicate Updated(orders: map<OrderId, OrderRec>, orders': map<OrderId, OrderRec>, final: OrderRec, queue: seq<OrderRec>, trades: seq<Trade>) {
    && final.id !in orders && orders'.Keys == orders.Keys + {final.id} && orders'[final.id] == final
    && |trades| <= |queue|
    && (forall i :: 0 <= i < |queue| ==> queue[i].id in orders && orders[queue[i].id] == queue[i])
    && (forall i :: 0 <= i < |queue| ==>
          orders'[queue[i].id] == (if i < |trades| then AfterFill(queue[i], trades[i].quantity) else queue[i]))
    && (forall id :: id in orders && id !in Ids(queue) ==> orders'[id] == orders[id])
  }

  lemma {:induction false} RefreshUpdates(orders: map<OrderId, OrderRec>, taker: OrderRec, final: OrderRec, queue: seq<OrderRec>, m: Sweep)
    requires BookRuns.DistinctIds(queue) && ChangesAre(taker, queue, m)
    requires final.id !in orders && forall i :: 0 <= i < |queue| ==> queue[i].id in orders && orders[queue[i].id] == queue[i]
    ensures Updated(orders, Refresh(orders, m.done + m.rest)[final.id := final], final, queue, m.trades)
  {
    hide Find;
    var all := m.done + m.rest;
    assert forall i :: 0 <= i < |all| ==> all[i].id == queue[i].id;
    forall i | 0 <= i < |queue|
      ensures Find(all, queue[i].id) == Some(all[i])
    {
      FindAt(all, i);
    }
    forall id | id in orders && id !in Ids(queue)
      ensures Find(all, id).None?
    {
      forall i | 0 <= i < |all|
        ensures all[i].id != id
      {
        assert queue[i].id in Ids(queue);
      }
      NotFound(all, id);
    }
  }

  /** Nothing but fills and statuses ever changes. */
  lemma {:induction false} SameFacts(orders: map<OrderId, OrderRec>, orders': map<OrderId, OrderRec>, final: OrderRec, queue: seq<OrderRec>, trades: seq<Trade>)
    requires Updated(orders, orders', final, queue, trades)
    ensures forall id :: id in orders ==> id in orders' && orders'[id] == orders[id].(filled := orders'[id].filled, status := orders'[id].status)
  {
    forall id | id in orders
      ensures orders'[id] == orders[id].(filled := orders'[id].filled, status := orders'[id].status)
    {
      if id in Ids(queue) {
        var i :| 0 <= i < |queue| && queue[i].id == id;
      }
    }
  }

  /** Fills keep every maker sane. */
  lemma {:induction false} FillsSane(r: OrderRec, quantity: int, side: Side, symbol: Symbol)
    requires Resting(r, side, symbol) && 0 < quantity <= r.Remaining()
    ensures Sane(AfterFill(r, quantity)) && (ShouldRest(AfterFill(r, quantity)) <==> quantity < r.Remaining())
  {
  }

  lemma {:induction false} StillSane(orders: map<OrderId, OrderRec>, orders': map<OrderId, OrderRec>, final: OrderRec, queue: seq<OrderRec>, trades: seq<Trade>,
                                     side: Side, symbol: Symbol)
    requires Updated(orders, orders', final, queue, trades) && AllResting(side, symbol, queue) && Sane(final)
    requires forall id :: id in orders ==> Sane(orders[id])
    requires forall i :: 0 <= i < |trades| ==> 0 < trades[i].quantity <= queue[i].Remaining()
    ensures forall id :: id in orders' ==> Sane(orders'[id])
  {
    forall id | id in orders'
      ensures Sane(orders'[id])
    {
      if id != final.id && id in Ids(queue) {
        var i :| 0 <= i < |queue| && queue[i].id == id;
        if i < |trades| {
          FillsSane(queue[i], trades[i].quantity, side, symbol);
        }
      }
    }
  }

  /** The newcomer's final record. */
  lemma {:induction false} FinalIs(taker: OrderRec, bound: Option<Price>, queue: seq<OrderRec>)
    requires Positive(queue)
    ensures var m := Match(taker, bound, queue);
            var final := Settle(m.taker);
            && final == taker.(filled := taker.filled + TradedQuantity(m.trades), status := final.status)
            && m.taker == taker.(filled := taker.filled + TradedQuantity(m.trades))
  {
    MatchIsSweep(taker, bound, queue);
    hide Match;
  }

  lemma {:induction false} FinalSane(taker: OrderRec, bound: Option<Price>, queue: seq<OrderRec>)
    requires Positive(queue) && taker.filled == 0 && taker.status == Pending && taker.quantity > 0
    ensures var m := Match(taker, bound, queue);
            Sane(Settle(m.taker)) && (ShouldRest(Settle(m.taker)) <==> Rests(m.taker))
  {
    MatchIsSweep(taker, bound, queue);
    var m := Match(taker, bound, queue);
    MatchNeverOverfills(taker, bound, queue);
    TradesPositive(taker, queue, m);
    TotalPositive(m.trades);
    hide Match;
  }

  /** Every fill is named by the trade that made it. */
  lemma {:induction false} StillAccounted(orders: map<OrderId, OrderRec>, orders': map<OrderId, OrderRec>, taker: OrderRec, bound: Option<Price>, queue: seq<OrderRec>,
                                          log: seq<Trade>)
    requires Positive(queue) && BookRuns.DistinctIds(queue) && taker.filled == 0
    requires var m := Match(taker, bound, queue); Updated(orders, orders', Settle(m.taker), queue, m.trades)
    requires forall id :: id in orders ==> orders[id].filled == Named(log, id)
    requires taker.id !in orders && Named(log, taker.id) == 0
    ensures forall id :: id in orders' ==> orders'[id].filled == Named(log + Match(taker, bound, queue).trades, id)
  {
    hide Match, Named, Settle;
    NamedInSweep(taker, bound, queue);
    FinalIs(taker, bound, queue);
    var m := Match(taker, bound, queue);
    forall id | id in orders'
      ensures orders'[id].filled == Named(log + m.trades, id)
    {
      NamedConcat(log, m.trades, id);
      if id != taker.id && id in Ids(queue) {
        var i :| 0 <= i < |queue| && queue[i].id == id;
      }
    }
  }

  lemma {:induction false} StillLogged(orders: map<OrderId, OrderRec>, orders': map<OrderId, OrderRec>, log: seq<Trade>)
    requires forall id :: id in orders ==> id in orders' && orders'[id] == orders[id].(filled := orders'[id].filled, status := orders'[id].status)
    requires forall i :: 0 <= i < |log| ==> TradeOk(log[i], orders)
    ensures forall i :: 0 <= i < |log| ==> TradeOk(log[i], orders')
  {
  }

  /** The sweep's own trades name a resting maker and the newcomer. */
  lemma {:induction false} TradesLogged(orders: map<OrderId, OrderRec>, orders': map<OrderId, OrderRec>, taker: OrderRec, m: Sweep, queue: seq<OrderRec>, symbol: Symbol)
    requires ChangesAre(taker, queue, m) && Updated(orders, orders', Settle(m.taker), queue, m.trades)
    requires AllResting(taker.side.Opposite(), symbol, queue) && taker.symbol == symbol
    requires m.taker == taker.(filled := m.taker.filled)
    ensures forall i :: 0 <= i < |m.trades| ==> TradeOk(m.trades[i], orders')
  {
    forall i | 0 <= i < |m.trades|
      ensures TradeOk(m.trades[i], orders')
    {
      assert m.trades[i] == TradeOf(taker, queue[i], m.trades[i].quantity);
      assert Resting(queue[i], taker.side.Opposite(), symbol);
    }
  }

  // ---------- a submission keeps the books and the order map together ----------

  /** The matched side, after the sweep. */
  lemma {:induction false} RestPresent(orders: map<OrderId, OrderRec>, orders': map<OrderId, OrderRec>, taker: OrderRec, final: OrderRec, queue: seq<OrderRec>, m: Sweep)
    requires ChangesAre(taker, queue, m) && Updated(orders, orders', final, queue, m.trades) && |m.done| <= |m.trades|
    ensures Present(m.rest, orders')
  {
    var all, n := m.done + m.rest, |m.done|;
    forall i | 0 <= i < |m.rest|
      ensures m.rest[i].id in orders' && orders'[m.rest[i].id] == m.rest[i]
    {
      assert all[n + i] == m.rest[i];
      assert queue[n + i].id == m.rest[i].id;
    }
  }

  /** The other side, with the newcomer in it if it rests. */
  lemma {:induction false} OwnPresent(orders: map<OrderId, OrderRec>, orders': map<OrderId, OrderRec>, final: OrderRec, own: seq<OrderRec>,
                                      queue: seq<OrderRec>, trades: seq<Trade>)
    requires Updated(orders, orders', final, queue, trades) && Present(own, orders) && BookRuns.Apart(own, queue)
    ensures Present(own, orders') && Present(Insert(own, final), orders')
  {
    forall i | 0 <= i < |own|
      ensures own[i].id in orders' && orders'[own[i].id] == own[i]
    {
      assert own[i].id !in Ids(queue);
    }
    InsertedFrom(own, final);
    hide Insert;
  }

  /** Which ids rest after a sweep: those that were not filled completely. */
  lemma {:induction false} RestIds(taker: OrderRec, bound: Option<Price>, queue: seq<OrderRec>, orders: map<OrderId, OrderRec>, orders': map<OrderId, OrderRec>,
                                   side: Side, symbol: Symbol, id: OrderId)
    requires AllResting(side, symbol, queue) && id in Ids(queue)
    requires var m := Match(taker, bound, queue); Updated(orders, orders', Settle(m.taker), queue, m.trades) && ShouldRest(orders'[id])
    ensures id in Ids(Match(taker, bound, queue).rest)
  {
    hide Match, Settle, Ids, ShouldRest, TradeOf;
    RestingPositive(side, symbol, queue);
    MatchIsSweep(taker, bound, queue);
    var m := Match(taker, bound, queue);
    var i := IndexOf(queue, id);
    DoneOrLeft(taker, bound, queue, i);
    FilledOut(queue[i], side, symbol);
    MemberId(m.rest, i - |m.done|);
  }

  lemma {:induction false} IndexOf(queue: seq<OrderRec>, id: OrderId) returns (i: nat)
    requires id in Ids(queue)
    ensures i < |queue| && queue[i].id == id
  {
    var r :| r in queue && r.id == id;
    i :| 0 <= i < |queue| && queue[i] == r;
  }

  lemma {:induction false} MemberId(queue: seq<OrderRec>, i: int)
    ensures 0 <= i < |queue| ==> queue[i].id in Ids(queue)
  {
  }

  /** A maker of a sweep was filled completely, or it still stands in the rest. */
  lemma {:induction false} DoneOrLeft(taker: OrderRec, bound: Option<Price>, queue: seq<OrderRec>, i: nat)
    requires Positive(queue) && i < |queue|
    ensures var m := Match(taker, bound, queue);
            if i < |m.done| then i < |m.trades| && m.trades[i].quantity == queue[i].Remaining()
            else i - |m.done| < |m.rest| && m.rest[i - |m.done|].id == queue[i].id
  {
    hide Match, Positive;
    MatchIsSweep(taker, bound, queue);
  }

  lemma {:induction false} FilledOut(r: OrderRec, side: Side, symbol: Symbol)
    requires Resting(r, side, symbol)
    ensures !ShouldRest(AfterFill(r, r.Remaining()))
  {
  }

  lemma {:induction false} OneId(order: OrderRec)
    ensures Ids([order]) == {order.id}
  {
  }

  lemma {:induction false} InsertIds(queue: seq<OrderRec>, order: OrderRec)
    ensures Ids(Insert(queue, order)) == Ids(queue) + {order.id}
  {
    hide Ids, Rank;
    OneId(order);
    var k := Rank(queue, order.side, order.Px());
    IdsConcat(queue[..k] + [order], queue[k..]);
    IdsConcat(queue[..k], [order]);
    IdsConcat(queue[..k], queue[k..]);
    assert queue[..k] + queue[k..] == queue;
  }

  lemma {:induction false} StillComplete(taker: OrderRec, bound: Option<Price>, own: seq<OrderRec>, queue: seq<OrderRec>,
                                         orders: map<OrderId, OrderRec>, orders': map<OrderId, OrderRec>, side: Side, symbol: Symbol)
    requires AllResting(side, symbol, queue) && Complete(own, queue, orders, symbol)
    requires var m := Match(taker, bound, queue);
             && Updated(orders, orders', Settle(m.taker), queue, m.trades)
             && (ShouldRest(Settle(m.taker)) <==> Rests(m.taker))
    ensures var m := Match(taker, bound, queue);
            Complete(if Rests(m.taker) then Insert(own, Settle(m.taker)) else own, m.rest, orders', symbol)
  {
    var m := Match(taker, bound, queue);
    var own' := if Rests(m.taker) then Insert(own, Settle(m.taker)) else own;
    InsertIds(own, Settle(m.taker));
    forall id | id in orders' && orders'[id].symbol == symbol && ShouldRest(orders'[id])
      ensures id in Ids(own') + Ids(m.rest)
    {
      if id in Ids(queue) {
        RestIds(taker, bound, queue, orders, orders', side, symbol, id);
      }
    }
  }

  /** The book of the order's instrument, after the submission. */
  lemma {:induction false} BookMirrors(backend: Backend, s: State, order: OrderRec, orders: map<OrderId, OrderRec>, orders': map<OrderId, OrderRec>)
    requires Inv(s) && Fresh(s, order) && order.quantity > 0 && Mirrors(s.book, orders, s.book.symbol)
    requires var m := Match(order, backend.Bound(order), s.book.Queue(order.side.Opposite()));
             Updated(orders, orders', Settle(m.taker), s.book.Queue(order.side.Opposite()), m.trades)
    ensures Mirrors(Submit(s.book, order, backend.Bound(order)).0, orders', s.book.symbol)
  {
    hide Match, Settle, IsSweep, Rests, Insert, Updated, ChangesAre, ShouldRest, InOrder, BookRuns.DistinctIds, BookRuns.Apart,
      Uncrossed, AllResting, Inv, Backend.Bound, Positive, Complete;
    var own, queue, bound := s.book.Queue(order.side), s.book.Queue(order.side.Opposite()), backend.Bound(order);
    var m := Match(order, bound, queue);
    SideFacts(s, order.side);
    ChangedAt(order, bound, queue);
    SweepCounts(order, bound, queue);
    FinalSane(order, bound, queue);
    RestPresent(orders, orders', order, Settle(m.taker), queue, m);
    OwnPresent(orders, orders', Settle(m.taker), own, queue, m.trades);
    MirrorsSides(s.book, orders, s.book.symbol, order.side);
    StillComplete(order, bound, own, queue, orders, orders', order.side.Opposite(), s.book.symbol);
    MirrorsSides(Submit(s.book, order, bound).0, orders', s.book.symbol, order.side);
  }

  lemma {:induction false} MirrorsSides(book: Book, orders: map<OrderId, OrderRec>, symbol: Symbol, side: Side)
    ensures Mirrors(book, orders, symbol) <==>
            && Present(book.Queue(side), orders) && Present(book.Queue(side.Opposite()), orders)
            && Complete(book.Queue(side), book.Queue(side.Opposite()), orders, symbol)
  {
    assert Ids(book.bids) + Ids(book.asks) == Ids(book.asks) + Ids(book.bids);
    hide Ids;
  }

  lemma {:induction false} SweepCounts(order: OrderRec, bound: Option<Price>, queue: seq<OrderRec>)
    requires Positive(queue)
    ensures |Match(order, bound, queue).done| <= |Match(order, bound, queue).trades|
  {
    MatchIsSweep(order, bound, queue);
  }

  /** What the invariant says of the two queues, seen from one side. */
  lemma {:induction false} SideFacts(s: State, side: Side)
    requires Inv(s)
    ensures var own, queue := s.book.Queue(side), s.book.Queue(side.Opposite());
            && AllResting(side, s.book.symbol, own) && AllResting(side.Opposite(), s.book.symbol, queue)
            && Positive(own) && Positive(queue)
            && BookRuns.DistinctIds(own) && BookRuns.DistinctIds(queue) && BookRuns.Apart(own, queue)
  {
    var own, queue := s.book.Queue(side), s.book.Queue(side.Opposite());
    SidesFlip(Buy, s.book.bids, s.book.asks, s);
    assert SidesInv(side, own, queue, s);
    RestingPositive(side, s.book.symbol, own);
    RestingPositive(side.Opposite(), s.book.symbol, queue);
  }

  /** The books of other instruments. */
  lemma {:induction false} OtherMirrors(book: Book, symbol: Symbol, orders: map<OrderId, OrderRec>, orders': map<OrderId, OrderRec>, final: OrderRec,
                                        queue: seq<OrderRec>, trades: seq<Trade>)
    requires Mirrors(book, orders, symbol) && Updated(orders, orders', final, queue, trades) && final.symbol != symbol
    requires forall i :: 0 <= i < |queue| ==> queue[i].symbol != symbol
    requires forall i :: 0 <= i < |book.bids| ==> book.bids[i].symbol == symbol
    requires forall i :: 0 <= i < |book.asks| ==> book.asks[i].symbol == symbol
    ensures Mirrors(book, orders', symbol)
  {
    SameFacts(orders, orders', final, queue, trades);
    OtherIds(queue, orders, symbol);
  }

  lemma {:induction false} OtherIds(queue: seq<OrderRec>, orders: map<OrderId, OrderRec>, symbol: Symbol)
    requires Present(queue, orders) && forall i :: 0 <= i < |queue| ==> queue[i].symbol != symbol
    ensures forall id :: id in orders && orders[id].symbol == symbol ==> id !in Ids(queue)
  {
    forall id | id in Ids(queue)
      ensures id in orders && orders[id].symbol != symbol
    {
      var i :| 0 <= i < |queue| && queue[i].id == id;
    }
  }

  lemma {:induction false} LaterInv(s: State, s': State)
    requires Inv(s) && s'.book == s.book && s'.clock >= s.clock
    requires forall id :: id in s.arrival ==> id in s'.arrival && s'.arrival[id] == s.arrival[id]
    requires forall id :: id in s'.arrival && id !in s.arrival ==> s'.arrival[id] < s'.clock
    ensures Inv(s')
  {
    LaterSide(Buy, s.book.bids, s, s');
    LaterSide(Sell, s.book.asks, s, s');
    hide SideInv;
  }

  lemma {:induction false} RestingSymbols(side: Side, symbol: Symbol, queue: seq<OrderRec>)
    requires AllResting(side, symbol, queue)
    ensures forall i :: 0 <= i < |queue| ==> queue[i].symbol == symbol
  {
  }

  /** Everything an admission gives the order map. */
  lemma {:induction false} AdmissionUpdates(backend: Backend, w: World, order: OrderRec)
    requires Good(w) && order.symbol in w.engine.books && order.id !in w.engine.orders
    ensures var queue := w.engine.books[order.symbol].Queue(order.side.Opposite());
            var m := Match(order, backend.Bound(order), queue);
            Updated(w.engine.orders, Refresh(w.engine.orders, m.done + m.rest)[order.id := Settle(m.taker)], Settle(m.taker), queue, m.trades)
  {
    var s := BookState(w, order.symbol);
    var queue := s.book.Queue(order.side.Opposite());
    var bound := backend.Bound(order);
    assert s.book.symbol == order.symbol && Inv(s) && Mirrors(s.book, w.engine.orders, order.symbol);
    MirrorsSides(s.book, w.engine.orders, order.symbol, order.side);
    hide Good, Match, Settle, Inv, Backend.Bound, Refresh, Updated, ChangesAre, Positive;
    SideFacts(s, order.side);
    ChangedAt(order, bound, queue);
    FinalIs(order, bound, queue);
    RefreshUpdates(w.engine.orders, order, Settle(Match(order, bound, queue).taker), queue, Match(order, bound, queue));
  }

  predicate Admits(w: World, order: OrderRec) {
    NewOrder(Submission(order)) && Validate(w.engine.books.Keys, w.engine.orders.Keys, order).None?
  }

  /** An admission, spelled out. */
  lemma {:induction false} AdmissionIs(backend: Backend, w: World, order: OrderRec)
    requires Admits(w, order)
    ensures var w' := Next(backend, w, Submission(order));
            var book, bound := w.engine.books[order.symbol], backend.Bound(order);
            var m := Match(order, bound, book.Queue(order.side.Opposite()));
            && w'.engine.books == w.engine.books[order.symbol := Submit(book, order, bound).0]
            && w'.engine.orders == Refresh(w.engine.orders, m.done + m.rest)[order.id := Settle(m.taker)]
            && w'.arrival == w.arrival[order.id := |w.admitted|] && w'.admitted == w.admitted + [order.id] && w'.log == w.log + m.trades
            && w'.engine.stats.volume == w.engine.stats.volume + TradedQuantity(m.trades)
            && w'.engine.stats.executed == w.engine.stats.executed + |m.trades|
  {
    hide Match, Settle, Insert, Refresh, Backend.Bound;
    var book, bound := w.engine.books[order.symbol], backend.Bound(order);
    var m := Match(order, bound, book.Queue(order.side.Opposite()));
    var out := Submit(book, order, bound);
    assert out.1.done + out.0.Queue(order.side.Opposite()) == m.done + m.rest;
  }

  /** The order is fresh in its book, which is in good order. */
  lemma {:induction false} FreshInBook(w: World, order: OrderRec)
    requires Good(w) && Admits(w, order)
    ensures var s := BookState(w, order.symbol);
            s.book.symbol == order.symbol && Inv(s) && Mirrors(s.book, w.engine.orders, order.symbol) && Fresh(s, order)
  {
    hide Inv, Mirrors;
  }

  lemma {:induction false} OwnBookGood(backend: Backend, w: World, order: OrderRec)
    requires Good(w) && Admits(w, order)
    ensures var w' := Next(backend, w, Submission(order));
            && order.symbol in w'.engine.books && w'.engine.books[order.symbol].symbol == order.symbol
            && Inv(BookState(w', order.symbol)) && Mirrors(w'.engine.books[order.symbol], w'.engine.orders, order.symbol)
  {
    hide Good, Next, Inv, Mirrors, Updated, Match, Settle, Refresh, Backend.Bound, Fresh, BookSpec.Submit;
    FreshInBook(w, order);
    AdmissionIs(backend, w, order);
    AdmissionUpdates(backend, w, order);
    var s, w' := BookState(w, order.symbol), Next(backend, w, Submission(order));
    SubmitKeeps(backend, s, order);
    SubmitKeepsSymbol(s.book, order, backend.Bound(order));
    BookMirrors(backend, s, order, w.engine.orders, w'.engine.orders);
    assert BookState(w', order.symbol) == Step(backend, s, SubmitOp(order));
  }

  lemma {:induction false} SubmitKeepsSymbol(book: Book, order: OrderRec, bound: Option<Price>)
    ensures Submit(book, order, bound).0.symbol == book.symbol
  {
    hide Match, Settle, Insert;
  }

  lemma {:induction false} OtherBookGood(backend: Backend, w: World, order: OrderRec, symbol: Symbol)
    requires Good(w) && Admits(w, order) && symbol in w.engine.books && symbol != order.symbol
    ensures var w' := Next(backend, w, Submission(order));
            && symbol in w'.engine.books && w'.engine.books[symbol] == w.engine.books[symbol]
            && Inv(BookState(w', symbol)) && Mirrors(w'.engine.books[symbol], w'.engine.orders, symbol)
  {
    hide Good, Next, Inv, Mirrors, Updated, Match, Settle, Refresh, Backend.Bound, BookSpec.Submit, AllResting,
      BookRuns.DistinctIds, BookRuns.Apart, Positive, Fresh;
    BookGood(w, symbol);
    FreshInBook(w, order);
    AdmissionIs(backend, w, order);
    AdmissionUpdates(backend, w, order);
    var s, t, w' := BookState(w, order.symbol), BookState(w, symbol), Next(backend, w, Submission(order));
    LaterInv(t, BookState(w', symbol));
    SideFacts(s, order.side);
    SideFacts(t, Buy);
    var queue := s.book.Queue(order.side.Opposite());
    var m := Match(order, backend.Bound(order), queue);
    RestingSymbols(order.side.Opposite(), order.symbol, queue);
    RestingSymbols(Buy, symbol, t.book.bids);
    RestingSymbols(Sell, symbol, t.book.asks);
    SettleKeepsSymbol(order, backend.Bound(order), queue);
    OtherMirrors(t.book, symbol, w.engine.orders, w'.engine.orders, Settle(m.taker), queue, m.trades);
  }

  lemma {:induction false} BookGood(w: World, symbol: Symbol)
    requires Good(w) && symbol in w.engine.books
    ensures w.engine.books[symbol].symbol == symbol && Inv(BookState(w, symbol)) && Mirrors(w.engine.books[symbol], w.engine.orders, symbol)
    ensures forall id :: id in w.arrival <==> id in w.engine.orders
  {
    hide Inv, Mirrors;
  }

  lemma {:induction false} AdmitBooks(backend: Backend, w: World, order: OrderRec)
    requires Good(w) && Admits(w, order)
    ensures BooksOk(Next(backend, w, Submission(order)))
  {
    hide Good, Next, Inv, Mirrors, Match, Settle, Refresh, Backend.Bound, BookSpec.Submit;
    AdmissionIs(backend, w, order);
    OwnBookGood(backend, w, order);
    forall symbol | symbol in w.engine.books && symbol != order.symbol
      ensures var w' := Next(backend, w, Submission(order));
              && symbol in w'.engine.books && w'.engine.books[symbol] == w.engine.books[symbol] && w.engine.books[symbol].symbol == symbol
              && Inv(BookState(w', symbol)) && Mirrors(w'.engine.books[symbol], w'.engine.orders, symbol)
    {
      OtherBookGood(backend, w, order, symbol);
      BookGood(w, symbol);
    }
  }

  lemma {:induction false} AdmitOrders(backend: Backend, w: World, order: OrderRec)
    requires Good(w) && Admits(w, order)
    ensures OrdersOk(Next(backend, w, Submission(order)))
  {
    hide Good, Next, Inv, Mirrors, Updated, Match, Settle, Refresh, Backend.Bound, BookSpec.Submit, AllResting, Positive,
      Sane, ChangesAre, BookRuns.DistinctIds, BookRuns.Apart, Fresh;
    var s, w' := BookState(w, order.symbol), Next(backend, w, Submission(order));
    var queue, bound := s.book.Queue(order.side.Opposite()), backend.Bound(order);
    var m := Match(order, bound, queue);
    FreshInBook(w, order);
    OrdersSane(w);
    AdmissionIs(backend, w, order);
    AdmissionUpdates(backend, w, order);
    SideFacts(s, order.side);
    ChangedAt(order, bound, queue);
    ChangeFacts(order, queue, m);
    FinalIs(order, bound, queue);
    FinalSane(order, bound, queue);
    SameFacts(w.engine.orders, w'.engine.orders, Settle(m.taker), queue, m.trades);
    StillSane(w.engine.orders, w'.engine.orders, Settle(m.taker), queue, m.trades, order.side.Opposite(), order.symbol);
    UpdatedKeys(w.engine.orders, w'.engine.orders, Settle(m.taker), queue, m.trades);
  }

  lemma {:induction false} AdmitAccounts(backend: Backend, w: World, order: OrderRec)
    requires Good(w) && Admits(w, order)
    ensures Accounted(Next(backend, w, Submission(order)))
  {
    hide Good, Next, Inv, Mirrors, Updated, Match, Settle, Refresh, Backend.Bound, BookSpec.Submit, AllResting, Positive,
      Sane, Named, BookRuns.DistinctIds, BookRuns.Apart;
    var s, w' := BookState(w, order.symbol), Next(backend, w, Submission(order));
    FreshInBook(w, order);
    NeverNamed(w, order.id);
    OrdersSane(w);
    AdmissionIs(backend, w, order);
    AdmissionUpdates(backend, w, order);
    SideFacts(s, order.side);
    StillAccounted(w.engine.orders, w'.engine.orders, order, backend.Bound(order), s.book.Queue(order.side.Opposite()), w.log);
  }

  lemma {:induction false} AdmitLog(backend: Backend, w: World, order: OrderRec)
    requires Good(w) && Admits(w, order)
    ensures LogOk(Next(backend, w, Submission(order)))
  {
    hide Good, Next, Inv, Mirrors, Updated, Match, Settle, Refresh, Backend.Bound, BookSpec.Submit, AllResting, Positive,
      Sane, TradeOk, ChangesAre, BookRuns.DistinctIds, BookRuns.Apart, Named;
    var s, w' := BookState(w, order.symbol), Next(backend, w, Submission(order));
    var queue, bound := s.book.Queue(order.side.Opposite()), backend.Bound(order);
    var m := Match(order, bound, queue);
    FreshInBook(w, order);
    OrdersSane(w);
    AdmissionIs(backend, w, order);
    AdmissionUpdates(backend, w, order);
    SideFacts(s, order.side);
    ChangedAt(order, bound, queue);
    FinalIs(order, bound, queue);
    SameFacts(w.engine.orders, w'.engine.orders, Settle(m.taker), queue, m.trades);
    StillLogged(w.engine.orders, w'.engine.orders, w.log);
    TradesLogged(w.engine.orders, w'.engine.orders, order, m, queue, order.symbol);
  }

  lemma {:induction false} AdmitCounts(backend: Backend, w: World, order: OrderRec)
    requires Good(w) && Admits(w, order)
    ensures AdmittedOk(Next(backend, w, Submission(order)))
  {
    hide BooksOk, Accounted, LogOk, Next, Match, Settle, Backend.Bound, BookSpec.Submit;
    AdmissionIs(backend, w, order);
    var m := Match(order, backend.Bound(order), w.engine.books[order.symbol].Queue(order.side.Opposite()));
    TradedQuantityConcat(w.log, m.trades);
  }

  lemma {:induction false} ChangeFacts(taker: OrderRec, queue: seq<OrderRec>, m: Sweep)
    requires ChangesAre(taker, queue, m)
    ensures |m.trades| <= |queue| && forall i :: 0 <= i < |m.trades| ==> 0 < m.trades[i].quantity <= queue[i].Remaining()
  {
  }

  lemma {:induction false} UpdatedKeys(orders: map<OrderId, OrderRec>, orders': map<OrderId, OrderRec>, final: OrderRec, queue: seq<OrderRec>, trades: seq<Trade>)
    requires Updated(orders, orders', final, queue, trades)
    ensures orders'.Keys == orders.Keys + {final.id} && orders'[final.id] == final && final.id !in orders
  {
  }

  lemma {:induction false} OrdersSane(w: World)
    requires Good(w)
    ensures forall id :: id in w.engine.orders ==> Sane(w.engine.orders[id])
    ensures forall id :: id in w.engine.orders ==> w.engine.orders[id].filled == Named(w.log, id)
    ensures forall i :: 0 <= i < |w.log| ==> TradeOk(w.log[i], w.engine.orders)
    ensures OrdersOk(w)
  {
    hide Sane, Named, TradeOk, BooksOk;
  }

  /** No trade names an order that was never admitted. */
  lemma {:induction false} NeverNamed(w: World, id: OrderId)
    requires Good(w) && id !in w.engine.orders
    ensures Named(w.log, id) == 0
  {
    OrdersSane(w);
    hide Good;
    NamedNone(w.log, id);
  }

  lemma {:induction false} SettleKeepsSymbol(order: OrderRec, bound: Option<Price>, queue: seq<OrderRec>)
    requires Positive(queue)
    ensures Settle(Match(order, bound, queue).taker).symbol == order.symbol
  {
    FinalIs(order, bound, queue);
  }

  // ---------- cancellations ----------

  lemma {:induction false} RefreshOne(orders: map<OrderId, OrderRec>, r: OrderRec)
    requires r.id in orders
    ensures Refresh(orders, [r]) == orders[r.id := r]
  {
    assert [r][1..] == [];
    assert forall id :: Find([r], id) == if id == r.id then Some(r) else None;
  }

  /** A cancellation finds the order in its own book, in the state the map has it in. */
  lemma {:induction false} CancelFinds(s: State, orders: map<OrderId, OrderRec>, id: OrderId)
    requires Inv(s) && Mirrors(s.book, orders, s.book.symbol)
    ensures var (book, cancelled) := Cancel(s.book, id);
            && Inv(s.(book := book)) && book.symbol == s.book.symbol
            && (cancelled.Some? ==> id in orders && cancelled.value == AfterCancel(orders[id]) && Sane(cancelled.value) && orders[id].id == id
                                    && ShouldRest(orders[id]) && orders[id].symbol == s.book.symbol)
            && (cancelled.None? ==> book == s.book)
  {
    hide Inv, BookRuns.Apart, Complete, Sane, ShouldRest, AllResting;
    CancelKeeps(s, id);
    SideFacts(s, Buy);
    if Find(s.book.bids, id).Some? {
      FoundPresent(Buy, s.book.symbol, s.book.bids, orders, id);
    } else if Find(s.book.asks, id).Some? {
      FoundPresent(Sell, s.book.symbol, s.book.asks, orders, id);
    }
  }

  lemma {:induction false} FoundPresent(side: Side, symbol: Symbol, queue: seq<OrderRec>, orders: map<OrderId, OrderRec>, id: OrderId)
    requires AllResting(side, symbol, queue) && BookRuns.DistinctIds(queue) && Present(queue, orders) && Find(queue, id).Some?
    ensures id in orders && Find(queue, id).value == orders[id] && orders[id].id == id
    ensures Sane(AfterCancel(orders[id])) && ShouldRest(orders[id]) && orders[id].symbol == symbol
  {
    var at := FoundAt(queue, id);
    assert Resting(queue[at], side, symbol);
  }

  lemma {:induction false} PresentWithout(queue: seq<OrderRec>, orders: map<OrderId, OrderRec>, id: OrderId, r: OrderRec)
    requires BookRuns.DistinctIds(queue) && Present(queue, orders) && r.id == id
    ensures Present(Remove(queue, id), orders[id := r])
    ensures Ids(Remove(queue, id)) == Ids(queue) - {id}
  {
    hide Ids, Find, Remove;
    RemoveIds(queue, id);
    var rest := Remove(queue, id);
    if Find(queue, id).Some? {
      var at := FoundAt(queue, id);
      forall i | 0 <= i < |rest|
        ensures rest[i] in queue && rest[i].id != id
      {
        assert rest[i] == queue[if i < at then i else i + 1];
      }
    } else {
      NoneFound(queue, id);
      NotFound(queue, id);
    }
  }

  lemma {:induction false} NoneFound(queue: seq<OrderRec>, id: OrderId)
    requires Find(queue, id).None?
    ensures forall i :: 0 <= i < |queue| ==> queue[i].id != id
  {
    forall i | 0 <= i < |queue|
      ensures queue[i].id != id
    {
      assert queue[i].id in Ids(queue);
    }
  }

  lemma {:induction false} CancelIds(s: State, id: OrderId)
    requires Inv(s) && Cancel(s.book, id).1.Some?
    ensures var book := Cancel(s.book, id).0;
            book.bids == Remove(s.book.bids, id) && book.asks == Remove(s.book.asks, id)
  {
    SideFacts(s, Buy);
    hide Inv;
    if Find(s.book.bids, id).Some? {
      ApartIds(s.book.bids, s.book.asks, id);
      NoneFound(s.book.asks, id);
      NotFound(s.book.asks, id);
    } else {
      NoneFound(s.book.bids, id);
      NotFound(s.book.bids, id);
    }
  }

  lemma {:induction false} CancelMirrors(s: State, orders: map<OrderId, OrderRec>, id: OrderId)
    requires Inv(s) && Mirrors(s.book, orders, s.book.symbol) && Cancel(s.book, id).1.Some?
    ensures id in orders && Mirrors(Cancel(s.book, id).0, orders[id := Cancel(s.book, id).1.value], s.book.symbol)
  {
    CancelFinds(s, orders, id);
    CancelIds(s, id);
    SideFacts(s, Buy);
    var r := Cancel(s.book, id).1.value;
    hide Cancel, Inv;
    assert r.id == id && r.status == Cancelled;
    PresentWithout(s.book.bids, orders, id, r);
    PresentWithout(s.book.asks, orders, id, r);
    hide Remove, Ids;
  }

  lemma {:induction false} CancelOther(book: Book, symbol: Symbol, orders: map<OrderId, OrderRec>, r: OrderRec)
    requires Mirrors(book, orders, symbol) && r.id in orders && orders[r.id].symbol != symbol && r.symbol != symbol
    requires AllResting(Buy, symbol, book.bids) && AllResting(Sell, symbol, book.asks)
    ensures Mirrors(book, orders[r.id := r], symbol)
  {
  }

  /** A cancellation that finds nothing changes nothing. */
  lemma {:induction false} CancelIs(w: World, id: OrderId)
    requires Good(w)
    ensures var w' := Next(Python, w, Cancellation(id));
            && (CancelOrder(w.engine, id).1.None? ==> w' == w)
            && (CancelOrder(w.engine, id).1.Some? ==>
                  && id in w.engine.orders && w.engine.orders[id].symbol in w.engine.books
                  && var symbol := w.engine.orders[id].symbol;
                     var (book, r) := Cancel(w.engine.books[symbol], id);
                     && r == CancelOrder(w.engine, id).1 && r.Some? && r.value == AfterCancel(w.engine.orders[id])
                     && w' == w.(engine := w'.engine) && w'.engine.books == w.engine.books[symbol := book]
                     && w'.engine.orders == w.engine.orders[id := r.value]
                     && w'.engine.stats.volume == w.engine.stats.volume && w'.engine.stats.executed == w.engine.stats.executed)
  {
    hide Inv, Mirrors, Cancel, Refresh, Accounted, LogOk, AdmittedOk;
    if id in w.engine.orders {
      var symbol := w.engine.orders[id].symbol;
      var s := BookState(w, symbol);
      BookGood(w, symbol);
      CancelFinds(s, w.engine.orders, id);
      var (book, r) := Cancel(s.book, id);
      if r.Some? {
        RefreshOne(w.engine.orders, r.value);
      } else {
        assert w.engine.books[symbol := book] == w.engine.books;
      }
    }
  }

  lemma {:induction false} CancelBooks(w: World, id: OrderId)
    requires Good(w) && CancelOrder(w.engine, id).1.Some?
    ensures BooksOk(Next(Python, w, Cancellation(id)))
  {
    hide Good, Inv, Mirrors, Cancel, Refresh, CancelOrder, Next, AllResting;
    CancelIs(w, id);
    var w' := Next(Python, w, Cancellation(id));
    var symbol := w.engine.orders[id].symbol;
    var s := BookState(w, symbol);
    BookGood(w, symbol);
    CancelFinds(s, w.engine.orders, id);
    CancelMirrors(s, w.engine.orders, id);
    forall t | t in w.engine.books && t != symbol
      ensures w'.engine.books[t].symbol == t && Inv(BookState(w', t)) && Mirrors(w'.engine.books[t], w'.engine.orders, t)
    {
      BookGood(w, t);
      SideFacts(BookState(w, t), Buy);
      CancelOther(w.engine.books[t], t, w.engine.orders, AfterCancel(w.engine.orders[id]));
    }
    assert BookState(w', symbol) == s.(book := Cancel(s.book, id).0);
  }

  lemma {:induction false} CancelGood(w: World, id: OrderId)
    requires Good(w)
    ensures Good(Next(Python, w, Cancellation(id)))
  {
    hide BooksOk, OrdersOk, Accounted, LogOk, AdmittedOk, CancelOrder, Next;
    if CancelOrder(w.engine, id).1.Some? {
      CancelBooks(w, id);
      CancelRest(w, id);
    } else {
      CancelIs(w, id);
    }
  }

  lemma {:induction false} CancelRest(w: World, id: OrderId)
    requires Good(w) && CancelOrder(w.engine, id).1.Some?
    ensures var w' := Next(Python, w, Cancellation(id)); OrdersOk(w') && Accounted(w') && LogOk(w') && AdmittedOk(w')
  {
    hide BooksOk, CancelOrder, Next, Cancel, Named, Sane;
    CancelIs(w, id);
    CancelSane(w, id);
  }

  lemma {:induction false} CancelSane(w: World, id: OrderId)
    requires Good(w) && CancelOrder(w.engine, id).1.Some?
    ensures id in w.engine.orders && Sane(AfterCancel(w.engine.orders[id])) && w.engine.orders[id].id == id
  {
    hide Inv, Mirrors, Cancel, Refresh, Accounted, LogOk, AdmittedOk;
    var symbol := w.engine.orders[id].symbol;
    BookGood(w, symbol);
    CancelFinds(BookState(w, symbol), w.engine.orders, id);
  }

  // ---------- whole runs ----------

  lemma {:induction false} RegisterGood(w: World, symbol: Symbol)
    requires Good(w)
    ensures Good(Next(Python, w, Register(symbol)))
  {
    var w' := Next(Python, w, Register(symbol));
    hide Inv, Mirrors, Accounted, AdmittedOk, Sane;
    if symbol !in w.engine.books {
      NewBook(w, symbol);
      forall t | t in w'.engine.books && t != symbol
        ensures w'.engine.books[t].symbol == t && Inv(BookState(w', t)) && Mirrors(w'.engine.books[t], w'.engine.orders, t)
      {
        assert BookState(w', t) == BookState(w, t);
      }
      SameAccounts(w, w');
    }
  }

  lemma {:induction false} SameAccounts(w: World, w': World)
    requires Accounted(w) && AdmittedOk(w) && w'.engine.orders == w.engine.orders && w'.log == w.log && w'.admitted == w.admitted
    requires w'.engine.stats.volume == w.engine.stats.volume && w'.engine.stats.executed == w.engine.stats.executed
    ensures Accounted(w') && AdmittedOk(w')
  {
    hide Named;
  }

  lemma {:induction false} NewBook(w: World, symbol: Symbol)
    requires Good(w) && symbol !in w.engine.books
    ensures var book := Book(symbol, [], [], 0);
            Inv(State(book, w.arrival, |w.admitted|)) && Mirrors(book, w.engine.orders, symbol)
  {
    hide Accounted, AdmittedOk, Sane;
    BookGoodArrivals(w);
  }

  lemma {:induction false} BookGoodArrivals(w: World)
    requires Good(w)
    ensures forall id :: id in w.arrival ==> w.arrival[id] < |w.admitted|
  {
  }

  lemma {:induction false} RejectGood(backend: Backend, w: World, order: OrderRec)
    requires Good(w) && Validate(w.engine.books.Keys, w.engine.orders.Keys, order).Some?
    ensures Good(Next(backend, w, Submission(order)))
  {
    hide Inv, Mirrors, Sane, Named, TradeOk;
    var w' := Next(backend, w, Submission(order));
    forall t | t in w'.engine.books
      ensures w'.engine.books[t].symbol == t && Inv(BookState(w', t)) && Mirrors(w'.engine.books[t], w'.engine.orders, t)
    {
      assert BookState(w', t) == BookState(w, t);
    }
  }

  lemma {:induction false} CancelAnyBackend(backend: Backend, w: World, call: Call)
    requires !call.Submission?
    ensures Next(backend, w, call) == Next(Python, w, call) || Next(backend, w, call) == w
    ensures call.Cancellation? ==> Next(backend, w, call) == Next(Python, w, call)
  {
  }

  /** Every call keeps the engine in good order. */
  lemma {:induction false} NextGood(backend: Backend, w: World, call: Call)
    requires Good(w) && NewOrder(call)
    ensures Good(Next(backend, w, call))
  {
    hide BooksOk, OrdersOk, Accounted, LogOk, AdmittedOk, Next, Validate;
    match call
    case Register(symbol) =>
      CancelAnyBackend(backend, w, call);
      RegisterGood(w, symbol);
    case Cancellation(id) =>
      CancelAnyBackend(backend, w, call);
      CancelGood(w, id);
    case Submission(order) =>
      if Validate(w.engine.books.Keys, w.engine.orders.Keys, order).Some? {
        RejectGood(backend, w, order);
      } else {
        AdmitBooks(backend, w, order);
        AdmitOrders(backend, w, order);
        AdmitAccounts(backend, w, order);
        AdmitLog(backend, w, order);
        AdmitCounts(backend, w, order);
      }
  }

  ghost predicate NewOrders(calls: seq<Call>) {
    forall i :: 0 <= i < |calls| ==> NewOrder(calls[i])
  }

  /** Every engine reachable from a new one is in good order. */
  lemma {:induction false} PlayedGood(backend: Backend, w: World, calls: seq<Call>)
    requires Good(w) && NewOrders(calls)
    ensures Good(Played(backend, w, calls))
    decreases |calls|
  {
    hide Good, Next;
    if calls != [] {
      NextGood(backend, w, calls[0]);
      PlayedGood(backend, Next(backend, w, calls[0]), calls[1..]);
    }
  }

  lemma {:induction false} StartGood()
    ensures Good(Start())
  {
  }

  // ---------- what one call changes ----------

  ghost predicate SameButProgress(a: OrderRec, b: OrderRec) {
    a == b.(filled := a.filled, status := a.status)
  }

  ghost predicate Names(trades: seq<Trade>, id: OrderId) {
    exists i :: 0 <= i < |trades| && trades[i].maker == id
  }

  lemma {:induction false} SubmissionIs(backend: Backend, w: World, r: OrderRec)
    requires Good(w) && NewOrder(Submission(r))
    ensures var (e, out) := SubmitOrder(backend, w.engine, r);
            && Next(backend, w, Submission(r)).engine == e
            && SameButProgress(out.order, r)
            && (out.rejection.Some? ==> e.orders == w.engine.orders && out.trades == [])
            && (out.rejection.None? ==> r.id !in w.engine.orders && e.orders.Keys == w.engine.orders.Keys + {r.id} && e.orders[r.id] == out.order)
  {
    hide Good, Match, Settle, Refresh, Insert, Backend.Bound;
    if Validate(w.engine.books.Keys, w.engine.orders.Keys, r).None? {
      var s := BookState(w, r.symbol);
      FreshInBook(w, r);
      SideFacts(s, r.side);
      FinalIs(r, backend.Bound(r), s.book.Queue(r.side.Opposite()));
    }
  }

  /** A submission changes the newcomer and the makers its trades name; no other order. */
  lemma {:induction false} Progress(backend: Backend, w: World, r: OrderRec)
    requires Good(w) && NewOrder(Submission(r))
    ensures var (e, out) := SubmitOrder(backend, w.engine, r);
            forall id :: id in w.engine.orders ==>
              && id in e.orders && SameButProgress(w.engine.orders[id], e.orders[id])
              && (e.orders[id] == w.engine.orders[id] || Names(out.trades, id))
  {
    hide Good, SubmitOrder, Next, SameButProgress, Names;
    SubmissionIs(backend, w, r);
    if Validate(w.engine.books.Keys, w.engine.orders.Keys, r).None? {
      AcceptedIs(backend, w, r);
      AcceptedProgress(backend, w, r);
    } else {
      RejectedIs(backend, w, r);
    }
  }

  lemma {:induction false} RejectedIs(backend: Backend, w: World, r: OrderRec)
    requires Validate(w.engine.books.Keys, w.engine.orders.Keys, r).Some?
    ensures SubmitOrder(backend, w.engine, r).0.orders == w.engine.orders
    ensures forall o: OrderRec :: SameButProgress(o, o)
  {
  }

  lemma {:induction false} AcceptedIs(backend: Backend, w: World, r: OrderRec)
    requires Admits(w, r)
    ensures SubmitOrder(backend, w.engine, r).1.trades
              == Match(r, backend.Bound(r), w.engine.books[r.symbol].Queue(r.side.Opposite())).trades
  {
    hide Match, Settle, Refresh, Insert, Backend.Bound;
  }

  lemma {:induction false} AcceptedProgress(backend: Backend, w: World, r: OrderRec)
    requires Good(w) && Admits(w, r)
    ensures var w' := Next(backend, w, Submission(r));
            var trades := Match(r, backend.Bound(r), w.engine.books[r.symbol].Queue(r.side.Opposite())).trades;
            forall id :: id in w.engine.orders ==>
              && id in w'.engine.orders && SameButProgress(w.engine.orders[id], w'.engine.orders[id])
              && (w'.engine.orders[id] == w.engine.orders[id] || Names(trades, id))
  {
    hide Good, Next, Match, Settle, Refresh, Backend.Bound, Inv, Mirrors, Fresh;
    var w' := Next(backend, w, Submission(r));
    var s := BookState(w, r.symbol);
    var queue, bound := s.book.Queue(r.side.Opposite()), backend.Bound(r);
    FreshInBook(w, r);
    SideFacts(s, r.side);
    ChangedAt(r, bound, queue);
    AdmissionIs(backend, w, r);
    AdmissionUpdates(backend, w, r);
    UpdatedNames(w.engine.orders, w'.engine.orders, r, Settle(Match(r, bound, queue).taker), queue, Match(r, bound, queue));
  }

  lemma {:induction false} UpdatedNames(orders: map<OrderId, OrderRec>, orders': map<OrderId, OrderRec>, taker: OrderRec, final: OrderRec,
                                        queue: seq<OrderRec>, m: Sweep)
    requires Updated(orders, orders', final, queue, m.trades) && ChangesAre(taker, queue, m)
    ensures forall id :: id in orders ==> id in orders' && SameButProgress(orders[id], orders'[id])
                                          && (orders'[id] == orders[id] || Names(m.trades, id))
  {
    SameFacts(orders, orders', final, queue, m.trades);
    forall id | id in orders
      ensures orders'[id] == orders[id] || Names(m.trades, id)
    {
      if id in Ids(queue) {
        var i :| 0 <= i < |queue| && queue[i].id == id;
        assert i < |m.trades| ==> m.trades[i].maker == id;
      }
    }
  }

  /** A cancellation changes the cancelled order only. */
  lemma {:induction false} CancelChanges(w: World, id: OrderId)
    requires Good(w)
    ensures var (e, r) := EngineSpec.CancelOrder(w.engine, id);
            && Next(Python, w, Cancellation(id)).engine == e
            && (r.None? ==> e == w.engine)
            && (r.Some? ==> id in w.engine.orders && e.orders == w.engine.orders[id := r.value] && SameButProgress(r.value, w.engine.orders[id]))
  {
    hide Good, EngineSpec.CancelOrder;
    CancelIs(w, id);
  }

  /** Orders change in fill and status only, and none that has stopped resting rests again; only `extra` may be new. */
  ghost predicate Evolves(orders: map<OrderId, OrderRec>, orders': map<OrderId, OrderRec>, extra: set<OrderId>) {
    && (forall id :: id in orders ==>
          id in orders' && SameButProgress(orders'[id], orders[id]) && (ShouldRest(orders'[id]) ==> ShouldRest(orders[id])))
    && (forall id :: id in orders' ==> id in orders || id in extra)
  }

  lemma {:induction false} UpdatedEvolves(orders: map<OrderId, OrderRec>, orders': map<OrderId, OrderRec>, final: OrderRec,
                                          queue: seq<OrderRec>, trades: seq<Trade>, side: Side, symbol: Symbol)
    requires Updated(orders, orders', final, queue, trades) && AllResting(side, symbol, queue)
    ensures Evolves(orders, orders', {final.id})
  {
    SameFacts(orders, orders', final, queue, trades);
    forall id | id in orders && ShouldRest(orders'[id])
      ensures ShouldRest(orders[id])
    {
      if id in Ids(queue) {
        var i :| 0 <= i < |queue| && queue[i].id == id;
        assert Resting(queue[i], side, symbol);
      }
    }
  }

  lemma {:induction false} SubmissionEvolves(backend: Backend, w: World, r: OrderRec)
    requires Good(w) && NewOrder(Submission(r))
    ensures var w' := Next(backend, w, Submission(r));
            var out := SubmitOrder(backend, w.engine, r).1;
            && Good(w') && w'.engine == SubmitOrder(backend, w.engine, r).0 && w'.log == w.log + out.trades
            && Evolves(w.engine.orders, w'.engine.orders, {r.id})
            && (r.id !in w.engine.orders && r.id in w'.engine.orders ==> SameButProgress(w'.engine.orders[r.id], r))
  {
    hide Good, Evolves, Match, Settle, Refresh, Insert, Backend.Bound, Inv, Mirrors, Fresh, Updated;
    NextGood(backend, w, Submission(r));
    SubmissionIs(backend, w, r);
    if Validate(w.engine.books.Keys, w.engine.orders.Keys, r).None? {
      AdmissionEvolves(backend, w, r);
      AcceptedIs(backend, w, r);
    } else {
      NothingEvolves(w.engine.orders, {r.id});
      assert w.log + [] == w.log;
    }
  }

  lemma {:induction false} NothingEvolves(orders: map<OrderId, OrderRec>, extra: set<OrderId>)
    ensures Evolves(orders, orders, extra)
  {
  }

  lemma {:induction false} AdmissionEvolves(backend: Backend, w: World, r: OrderRec)
    requires Good(w) && Admits(w, r)
    ensures var w' := Next(backend, w, Submission(r)); Evolves(w.engine.orders, w'.engine.orders, {r.id})
    ensures Next(backend, w, Submission(r)).log == w.log + Match(r, backend.Bound(r), w.engine.books[r.symbol].Queue(r.side.Opposite())).trades
  {
    hide Good, Next, Match, Settle, Refresh, Backend.Bound, Inv, Mirrors, Fresh, Updated, AllResting, BookRuns.DistinctIds, BookRuns.Apart, Positive;
    var w' := Next(backend, w, Submission(r));
    var s := BookState(w, r.symbol);
    var queue, bound := s.book.Queue(r.side.Opposite()), backend.Bound(r);
    FreshInBook(w, r);
    SideFacts(s, r.side);
    AdmissionIs(backend, w, r);
    AdmissionUpdates(backend, w, r);
    FinalIs(r, bound, queue);
    UpdatedEvolves(w.engine.orders, w'.engine.orders, Settle(Match(r, bound, queue).taker), queue, Match(r, bound, queue).trades,
                   r.side.Opposite(), r.symbol);
  }

  lemma {:induction false} CancellationEvolves(w: World, id: OrderId)
    requires Good(w)
    ensures var w' := Next(Python, w, Cancellation(id));
            && Good(w') && w'.engine == CancelOrder(w.engine, id).0 && w'.log == w.log
            && Evolves(w.engine.orders, w'.engine.orders, {})
            && (CancelOrder(w.engine, id).1.Some? ==> id in w'.engine.orders && !ShouldRest(w'.engine.orders[id]))
            && (CancelOrder(w.engine, id).1.None? ==> w' == w)
  {
    hide Good, CancelOrder;
    CancelGood(w, id);
    CancelIs(w, id);
  }
}
