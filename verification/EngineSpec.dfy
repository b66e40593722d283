/** The matching engine over all books: validation, the order map and the counters. */
module EngineSpec {
  import opened Domain
  import opened BookSpec

  datatype RejectReason = SymbolNotFound | DuplicateOrderId | InvalidQuantity | InvalidPrice

  datatype Stats = Stats(received: int, matched: int, resting: int, cancelled: int, rejected: int, executed: int, volume: int)

  /** `orders` holds every order ever admitted, in its present state. */
  datatype Engine = Engine(books: map<Symbol, Book>, orders: map<OrderId, OrderRec>, stats: Stats)

  datatype EventType = OrderAcked | OrderFilled | OrderPartiallyFilled | OrderRejected

  datatype Outcome = Outcome(order: OrderRec, trades: seq<Trade>, resting: bool, rejection: Option<RejectReason>,
                             event: EventType, snapshot: Option<Snapshot>)

  const DEPTH: nat := 10

  /** The first check that fails decides the reason. */
  function Validate(books: set<Symbol>, orders: set<OrderId>, order: OrderRec): Option<RejectReason> {
    if order.symbol !in books then Some(SymbolNotFound)
    else if order.id in orders then Some(DuplicateOrderId)
    else if order.quantity <= 0 then Some(InvalidQuantity)
    else if order.kind.Limit? && (order.price.None? || order.price.value <= 0.0) then Some(InvalidPrice)
    else None
  }

  /** The order map, after the orders in `changed` have moved on. */
  function Refresh(orders: map<OrderId, OrderRec>, changed: seq<OrderRec>): (updated: map<OrderId, OrderRec>)
    ensures updated.Keys == orders.Keys
  {
    map id | id in orders :: var r := Find(changed, id); if r.Some? then r.value else orders[id]
  }

  function EventOf(order: OrderRec, trades: seq<Trade>): EventType {
    if trades != [] && order.Remaining() == 0 then OrderFilled
    else if trades != [] then OrderPartiallyFilled
    else OrderAcked
  }

  function Count(stats: Stats, report: Report): Stats {
    var s := if report.resting then stats.(resting := stats.resting + 1) else stats;
    if report.trades == [] then s
    else s.(matched := s.matched + 1, executed := s.executed + |report.trades|, volume := s.volume + TradedQuantity(report.trades))
  }

  function SubmitOrder(backend: Backend, e: Engine, order: OrderRec): (Engine, Outcome) {
    var received := e.stats.(received := e.stats.received + 1);
    var rejection := Validate(e.books.Keys, e.orders.Keys, order);
    if rejection.Some? then
      var rejected := order.(status := Rejected);
      (e.(stats := received.(rejected := received.rejected + 1)),
       Outcome(rejected, [], false, rejection, OrderRejected, None))
    else
      Admit(backend, e.(stats := received), order)
  }

  function Admit(backend: Backend, e: Engine, order: OrderRec): (Engine, Outcome)
    requires order.symbol in e.books
  {
    var (book, report) := Submit(e.books[order.symbol], order, backend.Bound(order));
    var changed := report.done + book.Queue(order.side.Opposite());
    (Engine(e.books[order.symbol := book], Refresh(e.orders, changed)[order.id := report.order], Count(e.stats, report)),
     Outcome(report.order, report.trades, report.resting, None, EventOf(report.order, report.trades), Some(backend.Show(TakeSnapshot(book, DEPTH)))))
  }

  /** A queue, once the order with this id has the record `r`. */
  function Restamped(queue: seq<OrderRec>, r: OrderRec): (rs: seq<OrderRec>)
    ensures |rs| == |queue| && forall i :: 0 <= i < |queue| ==> rs[i] == if queue[i].id == r.id then r else queue[i]
  {
    if queue == [] then [] else [if queue[0].id == r.id then r else queue[0]] + Restamped(queue[1..], r)
  }

  /**
   An order object is submitted that is already in the order map: it is turned away
   and marked so, but it is the same object that is filed, and perhaps still rests.
   */
  function Resubmit(e: Engine, id: OrderId): (Engine, Outcome)
    requires id in e.orders
  {
    var r := e.orders[id].(status := Rejected);
    var books := map s | s in e.books :: e.books[s].(bids := Restamped(e.books[s].bids, r), asks := Restamped(e.books[s].asks, r));
    (Engine(books, e.orders[id := r], e.stats.(received := e.stats.received + 1, rejected := e.stats.rejected + 1)),
     Outcome(r, [], false, Validate(e.books.Keys, e.orders.Keys, r), OrderRejected, None))
  }

  function CancelOrder(e: Engine, id: OrderId): (Engine, Option<OrderRec>) {
    if id !in e.orders || e.orders[id].symbol !in e.books then (e, None)
    else
      var symbol := e.orders[id].symbol;
      var (book, cancelled) := Cancel(e.books[symbol], id);
      if cancelled.None? then (e.(books := e.books[symbol := book]), None)
      else
        (Engine(e.books[symbol := book], Refresh(e.orders, [cancelled.value]),
                e.stats.(cancelled := e.stats.cancelled + 1, resting := if e.stats.resting > 1 then e.stats.resting - 1 else 0)),
         cancelled)
  }

  /** A symbol the backend does not list is refused. */
  function RegisterSymbol(backend: Backend, e: Engine, symbol: Symbol): Engine {
    if symbol in e.books || !backend.Lists(symbol) then e else e.(books := e.books[symbol := Book(symbol, [], [], 0)])
  }

  const NO_STATS := Stats(0, 0, 0, 0, 0, 0, 0)

  function EmptyEngine(): Engine { Engine(map[], map[], NO_STATS) }
}
