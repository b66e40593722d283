/** The Python matching engine: one book per instrument, one order map, running counters. */
module PyEngine {
  import opened Domain
  import opened BookSpec
  import opened EngineSpec
  import opened PyLevels
  import opened PyBook

  /** Every order of a queue is in the order map, under its own id. */
  ghost predicate RegisteredIn(orderMap: map<OrderId, Order>, queue: seq<Order>) {
    forall i :: 0 <= i < |queue| ==> queue[i].id in orderMap && orderMap[queue[i].id] == queue[i]
  }

  /** The order map, each order in its present state. */
  ghost function OrdersOf(orderMap: map<OrderId, Order>): (orders: map<OrderId, OrderRec>)
    reads orderMap.Values
    ensures orders.Keys == orderMap.Keys && forall id :: id in orderMap ==> orders[id] == orderMap[id].Rec()
  {
    map id | id in orderMap :: assert orderMap[id] in orderMap.Values; orderMap[id].Rec()
  }

  ghost function ViewsOf(books: map<Symbol, OrderBook>): (views: map<Symbol, Book>)
    reads *
    ensures views.Keys == books.Keys && forall symbol :: symbol in books ==> views[symbol] == books[symbol].View()
  {
    map symbol | symbol in books :: books[symbol].View()
  }

  class MatchingEngine {
    var books: map<Symbol, OrderBook>
    var orderMap: map<OrderId, Order>
    var stats: Stats

    constructor ()
      ensures Valid() && View() == EmptyEngine()
    {
      books, orderMap, stats := map[], map[], NO_STATS;
    }

    ghost predicate Registered(queue: seq<Order>)
      reads `orderMap
    {
      RegisteredIn(orderMap, queue)
    }

    ghost predicate BookOk(symbol: Symbol)
      requires symbol in books
      reads *
    {
      && books[symbol].symbol == symbol && books[symbol].Valid()
      && Registered(books[symbol].bids.queue) && Registered(books[symbol].asks.queue)
    }

    ghost predicate Valid()
      reads *
    {
      && (forall symbol :: symbol in books ==> BookOk(symbol))
      && (forall id :: id in orderMap ==> orderMap[id].id == id)
    }

    ghost function View(): Engine
      reads *
    {
      Engine(ViewsOf(books), OrdersOf(orderMap), stats)
    }

    /** Open a book for an instrument that has none; `e` is the engine as it stands. */
    method RegisterSymbol(symbol: Symbol, ghost e: Engine)
      requires Valid() && e == View()
      modifies `books
      ensures Valid() && View() == EngineSpec.RegisterSymbol(Python, e, symbol)
    {
      hide OrderBook.Valid, OrderBook.View, OrdersOf, ViewsOf, RegisteredIn, MatchingEngine.BookOk, MatchingEngine.Valid, Shows;
      if symbol !in books {
        AllAre(this, symbol, e.books);
        ghost var was := books;
        var book := new OrderBook(symbol);
        books := books[symbol := book];
        Opened(this, was, book, e.books);
      }
    }

    /** The first failing check, in the order they are made. */
    function Check(order: Order): (reason: Option<RejectReason>)
      reads `books, `orderMap
      ensures forall r: OrderRec :: r.symbol == order.symbol && r.id == order.id && r.quantity == order.quantity
                                    && r.kind == order.kind && r.price == order.price
                                    ==> reason == Validate(books.Keys, orderMap.Keys, r)
    {
      if order.symbol !in books then Some(SymbolNotFound)
      else if order.id in orderMap then Some(DuplicateOrderId)
      else if order.quantity <= 0 then Some(InvalidQuantity)
      else if order.kind.Limit? && (order.price.None? || order.price.value <= 0.0) then Some(InvalidPrice)
      else None
    }

    /** Match the order in `book`. */
    method MatchInBook(book: OrderBook, order: Order) returns (trades: seq<Trade>, resting: bool)
      requires book.Valid() && book.symbol == order.symbol && Absent(order, book.bids.queue) && Absent(order, book.asks.queue)
      requires order.kind.Limit? ==> order.price.Some?
      modifies book, order`filled, order`status
      modifies book.bids, book.bids.levels, book.bids.queue, book.asks, book.asks.levels, book.asks.queue
      ensures book.Valid()
      ensures Submitted(book, order, old(book.View()), old(order.Rec()), old(book.Side(order.side.Opposite()).queue),
                        old(book.Side(order.side).queue), trades, resting)
      ensures forall i :: 0 <= i < |old(book.Side(order.side).queue)| ==>
                old(book.Side(order.side).queue)[i].Rec() == old(book.Side(order.side).queue[i].Rec())
    {
      hide OrderBook.Valid, OrderBook.View, BookSpec.Submit, Gone, Recs, Absent;
      ghost var was := book.Side(order.side.Opposite()).queue;
      trades, resting := book.Submit(order);
      ghost var queue := book.Side(order.side.Opposite()).queue;
      RecsConcat(Gone(was, queue), queue);
      ViewQueue(book, order.side.Opposite());
      assert forall o :: o in queue ==> o in Gone(was, queue) + queue;
    }

    /** Match the order and enter it in the order map, leaving every other book as it was. */
    method MatchAndEnter(book: OrderBook, order: Order, ghost views: map<Symbol, Book>) returns (trades: seq<Trade>, resting: bool)
      requires book.Valid() && book.symbol == order.symbol && Absent(order, book.bids.queue) && Absent(order, book.asks.queue)
      requires forall symbol :: symbol in books && symbol != order.symbol ==> Strangers(books[symbol], book, order)
      requires OthersAre(books, order.symbol, views, orderMap)
      requires order.kind.Limit? ==> order.price.Some?
      modifies `orderMap, book, order`filled, order`status
      modifies book.bids, book.bids.levels, book.bids.queue, book.asks, book.asks.levels, book.asks.queue
      ensures book.Valid() && OthersAre(books, order.symbol, views, old(orderMap)) && orderMap == old(orderMap)[order.id := order]
      ensures Submitted(book, order, old(book.View()), old(order.Rec()), old(book.Side(order.side.Opposite()).queue),
                        old(book.Side(order.side).queue), trades, resting)
      ensures forall i :: 0 <= i < |old(book.Side(order.side).queue)| ==>
                old(book.Side(order.side).queue)[i].Rec() == old(book.Side(order.side).queue[i].Rec())
    {
      hide OrderBook.Valid, OrderBook.View, BookSpec.Submit, Recs, Absent, RegisteredIn, Submitted, Shows;
      trades, resting := MatchInBook(book, order);
      orderMap := orderMap[order.id := order];
    }

    /** The same, and what became of the order map. */
    method MatchInMap(book: OrderBook, order: Order, ghost views: map<Symbol, Book>, ghost orders: map<OrderId, OrderRec>)
      returns (trades: seq<Trade>, resting: bool)
      requires book.Valid() && book.symbol == order.symbol && Absent(order, book.bids.queue) && Absent(order, book.asks.queue)
      requires forall symbol :: symbol in books && symbol != order.symbol ==> Strangers(books[symbol], book, order)
      requires OthersAre(books, order.symbol, views, orderMap)
      requires order.kind.Limit? ==> order.price.Some?
      requires PyLevels.DistinctIds(book.Side(order.side.Opposite()).queue)
      requires RegisteredIn(orderMap, book.bids.queue) && RegisteredIn(orderMap, book.asks.queue)
      requires Filed(orderMap, order) && orders == OrdersOf(orderMap)
      modifies `orderMap, book, order`filled, order`status
      modifies book.bids, book.bids.levels, book.bids.queue, book.asks, book.asks.levels, book.asks.queue
      ensures book.Valid() && OthersAre(books, order.symbol, views, old(orderMap)) && orderMap == old(orderMap)[order.id := order]
      ensures Matched(book, order, old(book.View()), old(order.Rec()), old(orderMap), orders, trades, resting)
    {
      hide OrderBook.Valid, OrderBook.View, BookSpec.Submit, Gone, Recs, Absent, Strangers, Refresh, OrdersOf,
        PyLevels.DistinctIds, RegisteredIn, OthersAre, Submitted, Matched;
      ghost var was, own, index := book.Side(order.side.Opposite()).queue, book.Side(order.side).queue, orderMap;
      trades, resting := MatchAndEnter(book, order, views);
      assert forall id :: id in index && index[id] !in was ==> index[id].Rec() == orders[id];
      MapMatched(index, book, order, old(book.View()), old(order.Rec()), was, own, orders, trades, resting);
    }

    /** Admit an order that passed every check; `e` is the engine as it stands. */
    method Admit(order: Order, ghost e: Engine) returns (trades: seq<Trade>, resting: bool)
      requires Valid() && e == View() && order.symbol in books && order.id !in orderMap
      requires order.kind.Limit? ==> order.price.Some?
      modifies `orderMap, books[order.symbol], order`filled, order`status
      modifies books[order.symbol].bids, books[order.symbol].bids.levels, books[order.symbol].bids.queue
      modifies books[order.symbol].asks, books[order.symbol].asks.levels, books[order.symbol].asks.queue
      ensures Valid()
      ensures Admitted(this, order, e, old(order.Rec()), trades, resting)
    {
      hide OrderBook.Valid, OrderBook.View, BookSpec.Submit, Recs, Absent, Strangers, Refresh, OrdersOf, ViewsOf,
        PyLevels.DistinctIds, RegisteredIn, MatchingEngine.BookOk, MatchingEngine.Valid, OthersAre, Matched, Admitted, Filed;
      Ready(this, order, e.books);
      ghost var index := orderMap;
      trades, resting := MatchInMap(books[order.symbol], order, e.books, e.orders);
      Conclude(this, order, e, index, old(order.Rec()), trades, resting);
    }

    /** Move the counters on; nothing else changes. */
    method Tally(counted: Stats, ghost e: Engine)
      requires Valid() && e == View()
      modifies `stats
      ensures Valid() && View() == e.(stats := counted)
    {
      hide OrderBook.Valid, OrderBook.View, OrdersOf, ViewsOf, RegisteredIn, MatchingEngine.Valid;
      Holds(this, e.books, e.orders);
      stats := counted;
      Restored(this, e.books, e.orders);
    }

    /** Turn an order away. One that is already in the order map is marked wherever it is. */
    method Reject(order: Order, ghost e: Engine) returns (ghost e': Engine)
      requires Valid() && e == View()
      modifies order`status
      ensures Valid() && View() == e' && order.Rec() == old(order.Rec()).(status := Rejected)
      ensures Unfiled(orderMap, order) ==> e' == e
      ensures !Unfiled(orderMap, order) ==> order.id in e.orders && e' == EngineSpec.Resubmit(e, order.id).0.(stats := e.stats)
    {
      hide OrderBook.Valid, OrderBook.View, OrdersOf, ViewsOf, RegisteredIn, MatchingEngine.Valid, Unfiled;
      Holds(this, e.books, e.orders);
      AllButOne(this, order, e);
      FiledRec(this, order, e);
      order.status := Rejected;
      assert forall s :: s in books ==> ShowsButOne(books[s], s, e.books[s], orderMap, order);
      e' := if Unfiled(orderMap, order) then e else EngineSpec.Resubmit(e, order.id).0.(stats := e.stats);
      if Unfiled(orderMap, order) {
        NoneMarked(this, order, e);
      } else {
        Marked(this, order, e);
      }
      Restored(this, e'.books, e'.orders);
    }

    /**
     Submit an order: check it, match it, file it and count it; one that is already in
     the order map is turned away. `e` is the engine as it stands.
     */
    method SubmitOrder(order: Order, ghost e: Engine) returns (out: Outcome)
      requires Valid() && e == View()
      modifies this, order`filled, order`status, Touched(order.symbol)
      ensures Valid()
      ensures Unfiled(old(orderMap), order) ==> (View(), out) == EngineSpec.SubmitOrder(Python, e, old(order.Rec()))
      ensures !Unfiled(old(orderMap), order) ==> order.id in e.orders && (View(), out) == EngineSpec.Resubmit(e, order.id)
    {
      hide OrderBook.Valid, OrderBook.View, OrdersOf, ViewsOf, RegisteredIn, MatchingEngine.Valid, Refresh, BookSpec.Submit, Recs, Order.Rec, MatchingEngine.View,
        EngineSpec.Admit, Unfiled, Restamped;
      ViewFacts(this);
      RecFacts(order);
      FiledRec(this, order, e);
      Tally(stats.(received := stats.received + 1), e);
      ViewFacts(this);
      ghost var e1 := e.(stats := stats);
      var rejection := Check(order);
      if rejection.Some? {
        ghost var e2 := Reject(order, e1);
        ViewFacts(this);
        RecFacts(order);
        Tally(stats.(rejected := stats.rejected + 1), e2);
        out := Outcome(order.Rec(), [], false, rejection, OrderRejected, None);
      } else {
        out := Accept(order, e1);
      }
    }

    /** Match an order that passed every check, file it and count it. */
    method AdmitAndCount(order: Order, ghost e: Engine) returns (trades: seq<Trade>, resting: bool)
      requires Valid() && e == View() && order.symbol in books && order.id !in orderMap && (order.kind.Limit? ==> order.price.Some?)
      modifies this, order`filled, order`status, books[order.symbol]
      modifies books[order.symbol].bids, books[order.symbol].bids.levels, books[order.symbol].bids.queue
      modifies books[order.symbol].asks, books[order.symbol].asks.levels, books[order.symbol].asks.queue
      ensures Valid() && books == old(books)
      ensures var (e', report) := EngineSpec.Admit(Python, e, old(order.Rec()));
              View() == e' && order.Rec() == report.order && trades == report.trades && resting == report.resting
    {
      hide OrderBook.Valid, OrderBook.View, OrdersOf, ViewsOf, RegisteredIn, MatchingEngine.Valid, Refresh, BookSpec.Submit, Recs, TakeSnapshot, Order.Rec;
      trades, resting := Admit(order, e);
      var counted := if resting then stats.(resting := stats.resting + 1) else stats;
      if trades != [] {
        counted := counted.(matched := counted.matched + 1, executed := counted.executed + |trades|,
                            volume := counted.volume + TradedQuantity(trades));
      }
      Tally(counted, EngineSpec.Admit(Python, e, old(order.Rec())).0.(stats := stats));
    }

    /** The same, and report it with a snapshot of the book as it now is. */
    method Accept(order: Order, ghost e: Engine) returns (out: Outcome)
      requires Valid() && e == View() && order.symbol in books && order.id !in orderMap && (order.kind.Limit? ==> order.price.Some?)
      modifies this, order`filled, order`status, books[order.symbol]
      modifies books[order.symbol].bids, books[order.symbol].bids.levels, books[order.symbol].bids.queue
      modifies books[order.symbol].asks, books[order.symbol].asks.levels, books[order.symbol].asks.queue
      ensures Valid() && View() == EngineSpec.Admit(Python, e, old(order.Rec())).0
      ensures out == EngineSpec.Admit(Python, e, old(order.Rec())).1
    {
      hide OrderBook.Valid, OrderBook.View, OrdersOf, ViewsOf, RegisteredIn, MatchingEngine.Valid, Refresh, BookSpec.Submit, Recs, TakeSnapshot, Order.Rec;
      RecFacts(order);
      var trades, resting := AdmitAndCount(order, e);
      RecFacts(order);
      var event := if trades != [] && order.Remaining() == 0 then OrderFilled else if trades != [] then OrderPartiallyFilled else OrderAcked;
      BookIsValid(this, order.symbol);
      var snapshot := books[order.symbol].TakeSnapshot(DEPTH);
      out := Outcome(order.Rec(), trades, resting, None, event, Some(snapshot));
    }

    /** Cancel in `book`, leaving every other book as it was. */
    method CancelInBook(book: OrderBook, id: OrderId, ghost order: Order, ghost views: map<Symbol, Book>) returns (cancelled: Order?)
      requires book.Valid() && OthersAre(books, book.symbol, views, orderMap)
      requires forall symbol :: symbol in books && symbol != book.symbol ==> Strangers(books[symbol], book, order)
      modifies book`cancelMap, book.bids, book.bids.levels, book.bids.queue`status, book.asks, book.asks.levels, book.asks.queue`status
      ensures book.Valid() && OthersAre(books, book.symbol, views, orderMap)
      ensures cancelled != null ==> cancelled in old(book.bids.queue) + old(book.asks.queue) && cancelled.id == id
      ensures forall o :: o in book.bids.queue ==> o in old(book.bids.queue)
      ensures forall o :: o in book.asks.queue ==> o in old(book.asks.queue)
      ensures forall o :: o in old(book.bids.queue) && o != cancelled ==> o.Rec() == old(o.Rec())
      ensures forall o :: o in old(book.asks.queue) && o != cancelled ==> o.Rec() == old(o.Rec())
      ensures (book.View(), if cancelled == null then None else Some(cancelled.Rec())) == BookSpec.Cancel(old(book.View()), id)
    {
      hide OrderBook.Valid, OrderBook.View, BookSpec.Cancel, RegisteredIn;
      cancelled := book.Cancel(id);
    }

    /** Cancel an order in its book, and see what became of the order map; `e` is the engine as it stands. */
    method Withdraw(book: OrderBook, id: OrderId, ghost e: Engine) returns (cancelled: Order?)
      requires Valid() && e == View() && id in orderMap && orderMap[id].symbol in books && book == books[orderMap[id].symbol]
      modifies book`cancelMap, book.bids, book.bids.levels, book.bids.queue`status, book.asks, book.asks.levels, book.asks.queue`status
      ensures Valid() && Withdrawn(this, e, id, cancelled)
    {
      hide OrderBook.Valid, OrderBook.View, BookSpec.Cancel, RegisteredIn, Strangers, Absent, PyLevels.DistinctIds, OrdersOf, ViewsOf,
        MatchingEngine.Valid, Withdrawn, OthersAre, Refresh;
      ghost var order := orderMap[id];
      SymbolOf(this, e, id);
      ReadyToCancel(this, order, e);
      ghost var bids, asks := book.bids.queue, book.asks.queue;
      cancelled := CancelInBook(book, id, order, e.books);
      SubQueue(orderMap, book.bids.queue, bids);
      SubQueue(orderMap, book.asks.queue, asks);
      if cancelled != null {
        SubQueue(orderMap, [cancelled], if cancelled in bids then bids else asks);
        assert RegisteredIn(orderMap, [cancelled]);
        InMap(orderMap, cancelled);
      }
      assert forall i :: i in orderMap && orderMap[i] != cancelled ==> orderMap[i].Rec() == e.orders[i];
      ConcludeCancel(this, book, e, id, cancelled);
    }

    /** Cancel a resting order by id and count it; null when nothing with that id rests. `e` is the engine as it stands. */
    method CancelOrder(id: OrderId, ghost e: Engine) returns (cancelled: Order?)
      requires Valid() && e == View()
      modifies `stats, if id in orderMap then Touched(orderMap[id].symbol) else {}
      ensures Valid()
      ensures View() == EngineSpec.CancelOrder(e, id).0
      ensures (if cancelled == null then None else Some(cancelled.Rec())) == EngineSpec.CancelOrder(e, id).1
    {
      hide OrderBook.Valid, OrderBook.View, BookSpec.Cancel, RegisteredIn, OrdersOf, ViewsOf, MatchingEngine.Valid, MatchingEngine.View,
        Refresh, Order.Rec, EngineSpec.CancelOrder;
      ViewFacts(this);
      CancelStats(e, id);
      SymbolOf(this, e, id);
      if id !in orderMap {
        return null;
      }
      if orderMap[id].symbol !in books {
        return null;
      }
      cancelled := Withdraw(books[orderMap[id].symbol], id, e);
      if cancelled != null {
        ViewFacts(this);
        ghost var r := cancelled.Rec();
        Tally(stats.(cancelled := stats.cancelled + 1, resting := if stats.resting > 1 then stats.resting - 1 else 0),
              EngineSpec.CancelOrder(e, id).0.(stats := stats));
        assert cancelled.Rec() == r;
      }
    }

    /** The objects a submission for `symbol` may change. */
    ghost function Touched(symbol: Symbol): set<object>
      reads *
    {
      if symbol !in books then {}
      else
        var b := books[symbol];
        {b, b.bids, b.asks} + (set l | l in b.bids.levels) + (set l | l in b.asks.levels) + (set o | o in b.bids.queue) + (set o | o in b.asks.queue)
    }
  }

  /** The books of other instruments are sound, show `views`, and hold orders of `index` only. */
  ghost predicate OthersAre(books: map<Symbol, OrderBook>, symbol: Symbol, views: map<Symbol, Book>, index: map<OrderId, Order>)
    reads *
  {
    forall s :: s in books && s != symbol ==> s in views && Shows(books[s], s, views[s], index)
  }

  /** A sound book for `symbol` that shows `view` and holds orders of `index` only. */
  ghost predicate Shows(book: OrderBook, symbol: Symbol, view: Book, index: map<OrderId, Order>)
    reads book, book.bids, book.bids.levels, book.bids.queue, book.asks, book.asks.levels, book.asks.queue
  {
    && book.symbol == symbol && book.Valid() && book.View() == view
    && RegisteredIn(index, book.bids.queue) && RegisteredIn(index, book.asks.queue)
  }

  /** The order's book and the order map, once the order has been matched. */
  ghost predicate Matched(book: OrderBook, order: Order, view: Book, r: OrderRec, index: map<OrderId, Order>, orders: map<OrderId, OrderRec>,
                          trades: seq<Trade>, resting: bool)
    reads *
  {
    var out := BookSpec.Submit(view, r, order.price);
    && book.View() == out.0 && order.Rec() == out.1.order && trades == out.1.trades && resting == out.1.resting
    && OrdersOf(index[order.id := order]) == Refresh(orders, out.1.done + out.0.Queue(order.side.Opposite()))[order.id := out.1.order]
    && RegisteredIn(index[order.id := order], book.bids.queue) && RegisteredIn(index[order.id := order], book.asks.queue)
  }

  /** The engine, once the order has been admitted but not yet counted. */
  ghost predicate Admitted(m: MatchingEngine, order: Order, e: Engine, r: OrderRec, trades: seq<Trade>, resting: bool)
    requires order.symbol in e.books
    reads *
  {
    && r.symbol == order.symbol && r.price == order.price
    && m.View() == EngineSpec.Admit(Python, e, r).0.(stats := e.stats)
    && var out := EngineSpec.Admit(Python, e, r).1;
       order.Rec() == out.order && trades == out.trades && resting == out.resting
  }

  lemma {:induction false} MapMatched(index: map<OrderId, Order>, book: OrderBook, order: Order, view: Book, r: OrderRec, was: seq<Order>, own: seq<Order>,
                                      orders: map<OrderId, OrderRec>, trades: seq<Trade>, resting: bool)
    requires Submitted(book, order, view, r, was, own, trades, resting)
    requires orders.Keys == index.Keys && PyLevels.DistinctIds(was) && RegisteredIn(index, was) && RegisteredIn(index, own) && Filed(index, order)
    requires forall id :: id in index && index[id] !in was ==> index[id].Rec() == orders[id]
    ensures Matched(book, order, view, r, index, orders, trades, resting)
  {
    hide BookSpec.Submit, PyLevels.DistinctIds, RegisteredIn, Refresh, OrdersOf, Recs, OrderBook.View;
    MapRefreshed(index, was, orders);
    Newcomer(index, book, order, was, own);
  }

  /** The order is not among those already admitted. */
  ghost predicate Unfiled(orderMap: map<OrderId, Order>, order: Order) {
    forall id :: id in orderMap ==> orderMap[id] != order
  }

  /** What the engine holds, book by book and order by order. */
  ghost predicate Holding(books: map<Symbol, OrderBook>, orderMap: map<OrderId, Order>, views: map<Symbol, Book>, orders: map<OrderId, OrderRec>)
    reads *
  {
    && views.Keys == books.Keys && orders.Keys == orderMap.Keys
    && (forall s :: s in books ==>
          && books[s].symbol == s && books[s].Valid() && books[s].View() == views[s]
          && RegisteredIn(orderMap, books[s].bids.queue) && RegisteredIn(orderMap, books[s].asks.queue))
    && (forall id :: id in orderMap ==> orderMap[id].id == id && orderMap[id].Rec() == orders[id])
  }

  lemma {:induction false} Holds(e: MatchingEngine, views: map<Symbol, Book>, orders: map<OrderId, OrderRec>)
    requires e.Valid() && views == ViewsOf(e.books) && orders == OrdersOf(e.orderMap)
    ensures Holding(e.books, e.orderMap, views, orders)
  {
    hide OrderBook.Valid, OrderBook.View, RegisteredIn;
    assert forall s :: s in e.books ==> e.BookOk(s);
  }

  lemma {:induction false} Restored(e: MatchingEngine, views: map<Symbol, Book>, orders: map<OrderId, OrderRec>)
    requires Holding(e.books, e.orderMap, views, orders)
    ensures e.Valid() && ViewsOf(e.books) == views && OrdersOf(e.orderMap) == orders
  {
    hide OrderBook.Valid, OrderBook.View, RegisteredIn;
    var now := OrdersOf(e.orderMap);
    assert forall id :: id in now ==> now[id] == orders[id];
  }

  /** An order that is in the order map is there under its own id. */
  lemma {:induction false} FiledRec(m: MatchingEngine, order: Order, e: Engine)
    requires m.Valid() && e == m.View()
    ensures !Unfiled(m.orderMap, order) ==>
              order.id in m.orderMap && m.orderMap[order.id] == order && order.id in e.orders && e.orders[order.id] == order.Rec()
  {
    hide MatchingEngine.BookOk;
  }

  /** The queue's records are `was`, but for this order's own. */
  ghost predicate ButOne(queue: seq<Order>, was: seq<OrderRec>, order: Order)
    reads queue
  {
    |was| == |queue| && forall i :: 0 <= i < |queue| ==> was[i].id == queue[i].id && (queue[i] != order ==> queue[i].Rec() == was[i])
  }

  /** A sound book of the order map that shows `view`, but for this order's record. */
  ghost predicate ShowsButOne(book: OrderBook, symbol: Symbol, view: Book, index: map<OrderId, Order>, order: Order)
    reads book, book.bids, book.bids.levels, book.bids.queue, book.asks, book.asks.levels, book.asks.queue
  {
    && book.symbol == symbol == view.symbol && book.Valid() && book.sequence == view.sequence
    && RegisteredIn(index, book.bids.queue) && RegisteredIn(index, book.asks.queue)
    && ButOne(book.bids.queue, view.bids, order) && ButOne(book.asks.queue, view.asks, order)
  }

  lemma {:induction false} AllButOne(m: MatchingEngine, order: Order, e: Engine)
    requires Holding(m.books, m.orderMap, e.books, e.orders)
    ensures forall s :: s in m.books ==> ShowsButOne(m.books[s], s, e.books[s], m.orderMap, order)
  {
    hide OrderBook.Valid, RegisteredIn;
    forall s | s in m.books
      ensures ShowsButOne(m.books[s], s, e.books[s], m.orderMap, order)
    {
      ViewButOne(m.books[s], e.books[s], order);
    }
  }

  lemma {:induction false} ViewButOne(book: OrderBook, view: Book, order: Order)
    requires book.View() == view
    ensures book.symbol == view.symbol && book.sequence == view.sequence
    ensures ButOne(book.bids.queue, view.bids, order) && ButOne(book.asks.queue, view.asks, order)
  {
  }

  lemma {:induction false} QueueMarked(index: map<OrderId, Order>, queue: seq<Order>, was: seq<OrderRec>, order: Order)
    requires RegisteredIn(index, queue) && order.id in index && index[order.id] == order && ButOne(queue, was, order)
    ensures Recs(queue) == Restamped(was, order.Rec())
  {
    var shown, marked := Recs(queue), Restamped(was, order.Rec());
    forall i | 0 <= i < |queue|
      ensures shown[i] == marked[i]
    {
      assert queue[i].id in index && index[queue[i].id] == queue[i];
    }
  }

  lemma {:induction false} QueueUnmarked(index: map<OrderId, Order>, queue: seq<Order>, was: seq<OrderRec>, order: Order)
    requires RegisteredIn(index, queue) && Unfiled(index, order) && ButOne(queue, was, order)
    ensures Recs(queue) == was
  {
  }

  /** An order that is not in the order map is in no book either. */
  lemma {:induction false} NoneMarked(m: MatchingEngine, order: Order, e: Engine)
    requires Unfiled(m.orderMap, order) && e.books.Keys == m.books.Keys && e.orders.Keys == m.orderMap.Keys
    requires forall s :: s in m.books ==> ShowsButOne(m.books[s], s, e.books[s], m.orderMap, order)
    requires forall id :: id in m.orderMap ==> m.orderMap[id].id == id && (m.orderMap[id] != order ==> m.orderMap[id].Rec() == e.orders[id])
    ensures Holding(m.books, m.orderMap, e.books, e.orders)
  {
    hide OrderBook.Valid, RegisteredIn, ButOne, Order.Rec;
    forall s | s in m.books
      ensures m.books[s].View() == e.books[s]
    {
      QueueUnmarked(m.orderMap, m.books[s].bids.queue, e.books[s].bids, order);
      QueueUnmarked(m.orderMap, m.books[s].asks.queue, e.books[s].asks, order);
    }
  }

  lemma {:induction false} Marked(m: MatchingEngine, order: Order, e: Engine)
    requires order.id in m.orderMap && m.orderMap[order.id] == order && order.id in e.orders
    requires order.Rec() == e.orders[order.id].(status := Rejected)
    requires e.books.Keys == m.books.Keys && forall s :: s in m.books ==> ShowsButOne(m.books[s], s, e.books[s], m.orderMap, order)
    requires e.orders.Keys == m.orderMap.Keys
    requires forall id :: id in m.orderMap ==> m.orderMap[id].id == id && (m.orderMap[id] != order ==> m.orderMap[id].Rec() == e.orders[id])
    ensures var e' := EngineSpec.Resubmit(e, order.id).0; Holding(m.books, m.orderMap, e'.books, e'.orders)
  {
    hide OrderBook.Valid, RegisteredIn, Restamped, ButOne, Order.Rec;
    var r := order.Rec();
    forall s | s in m.books
      ensures m.books[s].View() == e.books[s].(bids := Restamped(e.books[s].bids, r), asks := Restamped(e.books[s].asks, r))
    {
      QueueMarked(m.orderMap, m.books[s].bids.queue, e.books[s].bids, order);
      QueueMarked(m.orderMap, m.books[s].asks.queue, e.books[s].asks, order);
    }
  }

  lemma {:induction false} ViewFacts(m: MatchingEngine)
    ensures m.View().stats == m.stats && m.View().books.Keys == m.books.Keys && m.View().orders.Keys == m.orderMap.Keys
  {
  }

  lemma {:induction false} RecFacts(order: Order)
    ensures var r := order.Rec();
            && r.id == order.id && r.symbol == order.symbol && r.side == order.side && r.kind == order.kind
            && r.price == order.price && r.quantity == order.quantity && r.Remaining() == order.Remaining()
  {
  }

  lemma {:induction false} BookIsValid(e: MatchingEngine, symbol: Symbol)
    requires e.Valid() && symbol in e.books
    ensures e.books[symbol].Valid() && e.books[symbol].View() == ViewsOf(e.books)[symbol]
  {
    hide OrderBook.Valid, OrderBook.View;
    assert e.BookOk(symbol);
  }

  /** Every order is filed under its own id, and the newcomer not yet. */
  ghost predicate Filed(orderMap: map<OrderId, Order>, order: Order) {
    order.id !in orderMap && forall id :: id in orderMap ==> orderMap[id].id == id && orderMap[id] != order
  }

  /** The engine after an admission. */
  lemma {:induction false} Conclude(m: MatchingEngine, order: Order, e: Engine, index: map<OrderId, Order>, r: OrderRec,
                                    trades: seq<Trade>, resting: bool)
    requires order.symbol in m.books && m.books.Keys == e.books.Keys && m.orderMap == index[order.id := order] && Filed(index, order)
    requires m.books[order.symbol].Valid() && m.books[order.symbol].symbol == order.symbol && OthersAre(m.books, order.symbol, e.books, index)
    requires Matched(m.books[order.symbol], order, e.books[order.symbol], r, index, e.orders, trades, resting)
    requires m.stats == e.stats && r == order.Rec().(filled := r.filled, status := r.status)
    ensures m.Valid() && Admitted(m, order, e, r, trades, resting)
  {
    hide OrderBook.Valid, OrderBook.View, Refresh, OrdersOf, RegisteredIn;
    forall symbol | symbol in m.books
      ensures m.BookOk(symbol)
    {
      if symbol != order.symbol {
        GrownRegister(index, order, m.books[symbol].bids.queue);
        GrownRegister(index, order, m.books[symbol].asks.queue);
      }
    }
    var out := BookSpec.Submit(e.books[order.symbol], r, order.price);
    assert out.1.order.id == order.id;
    hide BookSpec.Submit;
    assert ViewsOf(m.books) == e.books[order.symbol := out.0];
  }

  /** The engine, once an order has been withdrawn but not yet counted. */
  ghost predicate Withdrawn(m: MatchingEngine, e: Engine, id: OrderId, cancelled: Order?)
    reads *
  {
    var (e', r) := EngineSpec.CancelOrder(e, id);
    && (cancelled == null <==> r.None?) && (cancelled != null ==> cancelled.Rec() == r.value)
    && m.View() == e'.(stats := e.stats)
  }

  lemma {:induction false} CancelStats(e: Engine, id: OrderId)
    ensures var (e', r) := EngineSpec.CancelOrder(e, id);
            e'.stats == if r.None? then e.stats
                        else e.stats.(cancelled := e.stats.cancelled + 1, resting := if e.stats.resting > 1 then e.stats.resting - 1 else 0)
    ensures id !in e.orders || e.orders[id].symbol !in e.books ==> EngineSpec.CancelOrder(e, id) == (e, None)
  {
    hide BookSpec.Cancel, Refresh;
  }

  lemma {:induction false} SymbolOf(m: MatchingEngine, e: Engine, id: OrderId)
    requires e == m.View()
    ensures id in m.orderMap ==> id in e.orders && e.orders[id].symbol == m.orderMap[id].symbol
  {
  }

  /** What holds of the books and of the order map when an order is cancelled. */
  lemma {:induction false} ReadyToCancel(m: MatchingEngine, order: Order, e: Engine)
    requires m.Valid() && order.symbol in m.books && e == m.View()
    ensures var book := m.books[order.symbol];
            && book.Valid() && book.symbol == order.symbol && book.View() == e.books[order.symbol]
            && RegisteredIn(m.orderMap, book.bids.queue) && RegisteredIn(m.orderMap, book.asks.queue)
    ensures OthersAre(m.books, order.symbol, e.books, m.orderMap)
    ensures e.orders.Keys == m.orderMap.Keys && forall id :: id in m.orderMap ==> m.orderMap[id].id == id && e.orders[id] == m.orderMap[id].Rec()
    ensures forall symbol :: symbol in m.books && symbol != order.symbol ==> Strangers(m.books[symbol], m.books[order.symbol], order)
  {
    hide OrderBook.Valid, OrderBook.View, RegisteredIn, Strangers;
    assert m.BookOk(order.symbol);
    forall symbol | symbol in m.books && symbol != order.symbol
      ensures Strangers(m.books[symbol], m.books[order.symbol], order) && m.BookOk(symbol)
    {
      assert m.BookOk(symbol);
      StrangersApart(m.books[symbol], m.books[order.symbol], order);
    }
  }

  /** The engine after a withdrawal. */
  lemma {:induction false} ConcludeCancel(m: MatchingEngine, book: OrderBook, e: Engine, id: OrderId, cancelled: Order?)
    requires book.symbol in m.books && m.books[book.symbol] == book && m.books.Keys == e.books.Keys && m.stats == e.stats
    requires book.Valid() && OthersAre(m.books, book.symbol, e.books, m.orderMap)
    requires RegisteredIn(m.orderMap, book.bids.queue) && RegisteredIn(m.orderMap, book.asks.queue)
    requires (book.View(), if cancelled == null then None else Some(cancelled.Rec())) == BookSpec.Cancel(e.books[book.symbol], id)
    requires e.orders.Keys == m.orderMap.Keys && forall i :: i in m.orderMap ==> m.orderMap[i].id == i
    requires cancelled != null ==> cancelled.id in m.orderMap && m.orderMap[cancelled.id] == cancelled
    requires forall i :: i in m.orderMap && m.orderMap[i] != cancelled ==> m.orderMap[i].Rec() == e.orders[i]
    requires id in e.orders && e.orders[id].symbol == book.symbol
    ensures m.Valid() && Withdrawn(m, e, id, cancelled)
  {
    hide OrderBook.Valid, OrderBook.View, BookSpec.Cancel, Refresh, OrdersOf;
    assert forall symbol :: symbol in m.books ==> m.BookOk(symbol);
    assert ViewsOf(m.books) == e.books[book.symbol := book.View()];
    if cancelled != null {
      MapRefreshed(m.orderMap, [cancelled], e.orders);
      assert Recs([cancelled]) == [cancelled.Rec()];
    } else {
      var now := OrdersOf(m.orderMap);
      assert forall i :: i in now ==> now[i] == e.orders[i];
      assert now == e.orders;
    }
  }

  lemma {:induction false} InMap(index: map<OrderId, Order>, order: Order)
    requires RegisteredIn(index, [order])
    ensures order.id in index && index[order.id] == order
  {
    assert [order][0] == order;
  }

  lemma {:induction false} SubQueue(index: map<OrderId, Order>, queue: seq<Order>, was: seq<Order>)
    requires RegisteredIn(index, was) && forall o :: o in queue ==> o in was
    ensures RegisteredIn(index, queue)
  {
    forall i | 0 <= i < |queue|
      ensures queue[i].id in index && index[queue[i].id] == queue[i]
    {
      assert queue[i] in was;
    }
  }

  lemma {:induction false} AllAre(e: MatchingEngine, symbol: Symbol, views: map<Symbol, Book>)
    requires e.Valid() && views == ViewsOf(e.books)
    ensures OthersAre(e.books, symbol, views, e.orderMap) && forall id :: id in e.orderMap ==> e.orderMap[id].id == id
  {
    hide OrderBook.Valid, OrderBook.View, RegisteredIn;
    assert forall s :: s in e.books ==> e.BookOk(s);
  }

  lemma {:induction false} Opened(e: MatchingEngine, was: map<Symbol, OrderBook>, book: OrderBook, views: map<Symbol, Book>)
    requires book.symbol !in was && e.books == was[book.symbol := book] && views.Keys == was.Keys
    requires OthersAre(was, book.symbol, views, e.orderMap) && forall id :: id in e.orderMap ==> e.orderMap[id].id == id
    requires book.Valid() && book.bids.queue == [] && book.asks.queue == []
    ensures e.Valid() && ViewsOf(e.books) == views[book.symbol := book.View()]
  {
    hide OrderBook.Valid, OrderBook.View;
    assert forall s :: s in was ==> s != book.symbol && e.books[s] == was[s];
  }

  lemma {:induction false} GrownRegister(index: map<OrderId, Order>, order: Order, queue: seq<Order>)
    requires RegisteredIn(index, queue) && order.id !in index
    ensures RegisteredIn(index[order.id := order], queue)
  {
  }

  lemma {:induction false} ViewQueue(book: OrderBook, side: Side)
    ensures book.View().Queue(side) == Recs(book.Side(side).queue)
  {
  }

  /** The records of a queue, looked up by id. */
  lemma {:induction false} LookUp(queue: seq<Order>, id: OrderId)
    requires PyLevels.DistinctIds(queue)
    ensures forall i :: 0 <= i < |queue| && queue[i].id == id ==> Find(Recs(queue), id) == Some(queue[i].Rec())
    ensures (forall i :: 0 <= i < |queue| ==> queue[i].id != id) ==> Find(Recs(queue), id) == None
  {
    forall i | 0 <= i < |queue| && queue[i].id == id
      ensures Find(Recs(queue), id) == Some(queue[i].Rec())
    {
      RemoveAt(Recs(queue), i);
    }
    if forall i :: 0 <= i < |queue| ==> queue[i].id != id {
      NotFound(Recs(queue), id);
    }
  }

  /** If only the orders of `queue` may have changed, refreshing the old map from them gives the present one. */
  lemma {:induction false} MapRefreshed(orderMap: map<OrderId, Order>, queue: seq<Order>, orders: map<OrderId, OrderRec>)
    requires orders.Keys == orderMap.Keys && PyLevels.DistinctIds(queue) && RegisteredIn(orderMap, queue)
    requires forall id :: id in orderMap ==> orderMap[id].id == id
    requires forall id :: id in orderMap && orderMap[id] !in queue ==> orderMap[id].Rec() == orders[id]
    ensures OrdersOf(orderMap) == Refresh(orders, Recs(queue))
  {
    forall id | id in orderMap
      ensures OrdersOf(orderMap)[id] == Refresh(orders, Recs(queue))[id]
    {
      LookUp(queue, id);
      if orderMap[id] in queue {
        var i :| 0 <= i < |queue| && queue[i] == orderMap[id];
      } else {
        assert forall i :: 0 <= i < |queue| ==> queue[i].id != id;
      }
    }
  }

  /** The order map with the newcomer in it. */
  lemma {:induction false} Newcomer(orderMap: map<OrderId, Order>, book: OrderBook, order: Order, was: seq<Order>, own: seq<Order>)
    requires RegisteredIn(orderMap, was) && RegisteredIn(orderMap, own) && order.id !in orderMap
    requires forall o :: o in book.Side(order.side.Opposite()).queue ==> o in was
    requires forall o :: o in book.Side(order.side).queue ==> o in own || o == order
    ensures OrdersOf(orderMap[order.id := order]) == OrdersOf(orderMap)[order.id := order.Rec()]
    ensures RegisteredIn(orderMap[order.id := order], book.bids.queue) && RegisteredIn(orderMap[order.id := order], book.asks.queue)
  {
    var queue, mine := book.Side(order.side.Opposite()).queue, book.Side(order.side).queue;
    forall i | 0 <= i < |queue|
      ensures queue[i].id in orderMap && orderMap[queue[i].id] == queue[i]
    {
      assert queue[i] in was;
    }
    forall i | 0 <= i < |mine|
      ensures mine[i] == order || (mine[i].id in orderMap && orderMap[mine[i].id] == mine[i])
    {
      assert mine[i] in own || mine[i] == order;
    }
  }

  /** What a submission did to its book and to the orders in it, given how they were before. */
  ghost predicate Submitted(book: OrderBook, order: Order, view: Book, r: OrderRec, was: seq<Order>, own: seq<Order>,
                            trades: seq<Trade>, resting: bool)
    reads book, order, book.bids, book.asks, book.bids.queue, book.asks.queue, was
  {
    var out := BookSpec.Submit(view, r, order.price);
    var queue := book.Side(order.side.Opposite()).queue;
    && book.View() == out.0 && order.Rec() == out.1.order && trades == out.1.trades && resting == out.1.resting
    && Recs(was) == out.1.done + out.0.Queue(order.side.Opposite())
    && (forall o :: o in queue ==> o in was)
    && (forall o :: o in book.Side(order.side).queue ==> o in own || o == order)
  }

  /** What holds of the books and of the order map when an order is admitted. */
  lemma {:induction false} Ready(e: MatchingEngine, order: Order, views: map<Symbol, Book>)
    requires e.Valid() && order.symbol in e.books && order.id !in e.orderMap && views == ViewsOf(e.books)
    ensures var book := e.books[order.symbol];
            && book.Valid() && book.symbol == order.symbol && Absent(order, book.bids.queue) && Absent(order, book.asks.queue)
            && PyLevels.DistinctIds(book.bids.queue) && PyLevels.DistinctIds(book.asks.queue)
            && RegisteredIn(e.orderMap, book.bids.queue) && RegisteredIn(e.orderMap, book.asks.queue)
            && book.View() == views[order.symbol]
    ensures OthersAre(e.books, order.symbol, views, e.orderMap)
    ensures Filed(e.orderMap, order)
    ensures forall symbol :: symbol in e.books && symbol != order.symbol ==> Strangers(e.books[symbol], e.books[order.symbol], order)
  {
    hide OrderBook.Valid, OrderBook.View, Absent, PyLevels.DistinctIds, RegisteredIn, Strangers;
    assert e.BookOk(order.symbol);
    NotQueued(e.orderMap, e.books[order.symbol].bids.queue, order);
    NotQueued(e.orderMap, e.books[order.symbol].asks.queue, order);
    BookIds(e.books[order.symbol]);
    forall symbol | symbol in e.books && symbol != order.symbol
      ensures Strangers(e.books[symbol], e.books[order.symbol], order) && e.BookOk(symbol)
    {
      assert e.BookOk(symbol);
      StrangersApart(e.books[symbol], e.books[order.symbol], order);
    }
  }

  lemma {:induction false} NotQueued(index: map<OrderId, Order>, queue: seq<Order>, order: Order)
    requires RegisteredIn(index, queue) && order.id !in index
    ensures Absent(order, queue)
  {
  }

  lemma {:induction false} BookIds(book: OrderBook)
    requires book.Valid()
    ensures PyLevels.DistinctIds(book.bids.queue) && PyLevels.DistinctIds(book.asks.queue)
  {
    hide PyBook.Apart, Indexed;
  }

  /** Two books and a newcomer that share no object. */
  ghost predicate Strangers(a: OrderBook, b: OrderBook, order: Order)
    reads a, b, a.bids, a.asks, b.bids, b.asks
  {
    && a != b && a.bids != b.bids && a.asks != b.asks && a.bids != b.asks && a.asks != b.bids
    && Foreign(a.bids, b.bids) && Foreign(a.bids, b.asks) && Foreign(a.asks, b.bids) && Foreign(a.asks, b.asks)
    && (forall i :: 0 <= i < |a.bids.queue| ==> a.bids.queue[i] != order)
    && (forall i :: 0 <= i < |a.asks.queue| ==> a.asks.queue[i] != order)
  }

  ghost predicate Foreign(a: LevelMap, b: LevelMap)
    reads a, b
  {
    && (forall i, j :: 0 <= i < |a.levels| && 0 <= j < |b.levels| ==> a.levels[i] != b.levels[j])
    && (forall i, j :: 0 <= i < |a.queue| && 0 <= j < |b.queue| ==> a.queue[i] != b.queue[j])
  }

  lemma {:induction false} StrangersApart(a: OrderBook, b: OrderBook, order: Order)
    requires a.Valid() && b.Valid() && a.symbol != b.symbol && order.symbol == b.symbol
    ensures Strangers(a, b, order)
  {
    ForeignMaps(a.bids, b.bids);
    ForeignMaps(a.bids, b.asks);
    ForeignMaps(a.asks, b.bids);
    ForeignMaps(a.asks, b.asks);
    OwnSymbol(a.bids);
    OwnSymbol(a.asks);
    hide LevelMap.ValidBut, Indexed, PyBook.Apart;
  }

  lemma {:induction false} OwnSymbol(m: LevelMap)
    requires m.Valid()
    ensures forall i :: 0 <= i < |m.queue| ==> m.queue[i].symbol == m.symbol
  {
    assert forall i :: 0 <= i < |m.queue| ==> m.queue[i] in m.queue;
  }

  lemma {:induction false} OwnHome(m: LevelMap)
    requires m.Valid()
    ensures forall i :: 0 <= i < |m.levels| ==> m.levels[i].home == m
  {
    assert forall i :: 0 <= i < |m.levels| ==> m.levels[i] in m.levels;
  }

  lemma {:induction false} ForeignMaps(a: LevelMap, b: LevelMap)
    requires a.Valid() && b.Valid() && a.symbol != b.symbol
    ensures a != b && Foreign(a, b)
  {
    OwnSymbol(a);
    OwnSymbol(b);
    OwnHome(a);
    OwnHome(b);
    hide LevelMap.ValidBut;
  }
}
