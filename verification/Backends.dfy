/** The two engines as the service drives them, and exactly when it cannot tell them apart. */
module Backends {
  import opened Domain
  import opened BookSpec
  import opened MatchTheory
  import opened EngineSpec
  import opened EngineRuns
  import opened Agreement
  import opened HalCache
  import BookRuns
  import Conservation

  /** What a call returns or reports; a submission that raises reports nothing. */
  datatype Reply =
    | Registered(ok: bool)
    | Submitted(outcome: Option<Outcome>)
    | Withdrawn(order: Option<OrderRec>, snapshot: Option<Snapshot>)

  /** A backend with its history, and the orders as Python code holds them. */
  datatype Service = Service(world: World, held: map<OrderId, OrderRec>)

  function NewService(): Service { Service(Start(), map[]) }

  /** Held orders, brought up to date. */
  function Refreshed(held: map<OrderId, OrderRec>, orders: map<OrderId, OrderRec>): map<OrderId, OrderRec> {
    map id | id in held :: if id in orders then held[id].(filled := orders[id].filled, status := orders[id].status) else held[id]
  }

  // ---------- the Python engine ----------

  function PyReply(s: Service, call: Call): Reply {
    match call
    case Register(_) => Registered(true)
    case Submission(order) => Submitted(Some(SubmitOrder(Python, s.world.engine, order).1))
    case Cancellation(id) =>
      var (e, r) := CancelOrder(s.world.engine, id);
      Withdrawn(r, if r.Some? && r.value.symbol in e.books then Some(TakeSnapshot(e.books[r.value.symbol], DEPTH)) else None)
  }

  function PyNext(s: Service, call: Call): Service {
    var w := Next(Python, s.world, call);
    Service(w, w.engine.orders)
  }

  // ---------- the C++ engine behind its cache ----------

  function HalReply(s: Service, call: Call): Reply {
    match call
    case Register(symbol) => Registered(Native.Lists(symbol))
    case Submission(order) =>
      Submitted(if Encodes(order) then Some(AsSeen(SubmitOrder(Native, s.world.engine, Wire(order)).1, order)) else None)
    case Cancellation(id) =>
      var (e, r) := CancelOrder(s.world.engine, id);
      if r.None? then Withdrawn(None, None)
      else
        var order := if id in s.held then s.held[id].(filled := r.value.filled, status := r.value.status) else r.value;
        Withdrawn(Some(order), Picture(e, order.symbol, DEPTH))
  }

  function HalNext(s: Service, call: Call): Service {
    match call
    case Register(symbol) => Service(Next(Native, s.world, call), s.held)
    case Submission(order) =>
      if !Encodes(order) then s
      else
        var w := Next(Native, s.world, Submission(Wire(order)));
        var out := SubmitOrder(Native, s.world.engine, Wire(order)).1;
        Service(w, if out.rejection.Some? then s.held else Refreshed(s.held[order.id := AsSeen(out, order).order], w.engine.orders))
    case Cancellation(id) =>
      var w := Next(Native, s.world, call);
      Service(w, Refreshed(s.held, w.engine.orders))
  }

  // ---------- runs ----------

  function ReplyOf(backend: Backend, s: Service, call: Call): Reply {
    if backend.Python? then PyReply(s, call) else HalReply(s, call)
  }

  function Serve(backend: Backend, s: Service, call: Call): Service {
    if backend.Python? then PyNext(s, call) else HalNext(s, call)
  }

  function Replies(backend: Backend, s: Service, calls: seq<Call>): seq<Reply>
    decreases |calls|
  {
    if calls == [] then [] else [ReplyOf(backend, s, calls[0])] + Replies(backend, Serve(backend, s, calls[0]), calls[1..])
  }

  function Served(backend: Backend, s: Service, calls: seq<Call>): Service
    decreases |calls|
  {
    if calls == [] then s else Served(backend, Serve(backend, s, calls[0]), calls[1..])
  }

  // ---------- when a call is answered alike ----------

  function Cut(symbol: Symbol): Symbol { if |symbol| > 6 then symbol[..6] else symbol }

  /**
   What has to hold of a call, given the Python engine: a symbol registered is one to
   six characters long; an order's quantity fits the frame, its symbol is not cut into
   another book's, its price makes no difference, and what is shown afterwards fits in
   32 bits.
   */
  predicate Safe(w: World, call: Call) {
    match call
    case Register(symbol) => Native.Lists(symbol)
    case Submission(order) =>
      && Encodes(order) && (Cut(order.symbol) in w.engine.books ==> order.symbol in w.engine.books)
      && (Validate(w.engine.books.Keys, w.engine.orders.Keys, order).None? ==>
            && Harmless(order, w.engine.books[order.symbol].Queue(order.side.Opposite()))
            && Fits(TakeSnapshot(Submit(w.engine.books[order.symbol], order, order.price).0, DEPTH)))
    case Cancellation(id) =>
      var (e, r) := CancelOrder(w.engine, id);
      r.Some? && r.value.symbol in e.books ==> Fits(TakeSnapshot(e.books[r.value.symbol], DEPTH))
  }

  predicate AllSafe(w: World, calls: seq<Call>)
    decreases |calls|
  {
    calls == [] || (Safe(w, calls[0]) && AllSafe(Next(Python, w, calls[0]), calls[1..]))
  }

  // ---------- two backends in step ----------

  /** Admitted limit orders have a positive price. */
  ghost predicate Priced(orders: map<OrderId, OrderRec>) {
    forall id :: id in orders && orders[id].kind.Limit? ==> orders[id].price.Some? && orders[id].price.value > 0.0
  }

  ghost predicate Listed(books: map<Symbol, Book>) {
    forall symbol :: symbol in books ==> Native.Lists(symbol)
  }

  ghost predicate Sound(w: World) {
    Good(w) && Priced(w.engine.orders) && Listed(w.engine.books)
  }

  function Wires(orders: map<OrderId, OrderRec>): map<OrderId, OrderRec> {
    map id | id in orders :: Wire(orders[id])
  }

  /** The same books, counters, history and orders as held; C++ has each order as it crossed the wire. */
  ghost predicate InStep(p: Service, h: Service) {
    && p.held == p.world.engine.orders && h.held == p.held
    && h.world == p.world.(engine := p.world.engine.(orders := Wires(p.world.engine.orders)))
  }

  lemma {:induction false} RegisterStep(p: Service, h: Service, symbol: Symbol)
    requires Sound(p.world) && InStep(p, h)
    ensures PyReply(p, Register(symbol)) == HalReply(h, Register(symbol)) <==> Safe(p.world, Register(symbol))
    ensures Safe(p.world, Register(symbol)) ==>
              Sound(PyNext(p, Register(symbol)).world) && InStep(PyNext(p, Register(symbol)), HalNext(h, Register(symbol)))
  {
    hide Good;
    NextGood(Python, p.world, Register(symbol));
  }

  // ---------- cancellations ----------

  /** A resting order crosses the wire unchanged. */
  lemma {:induction false} RestingCrosses(w: World, symbol: Symbol, side: Side, i: nat)
    requires Sound(w) && symbol in w.engine.books && i < |w.engine.books[symbol].Queue(side)|
    ensures var r := w.engine.books[symbol].Queue(side)[i];
            Wire(r) == r && r.kind.Limit? && r.symbol == symbol && r.id in w.engine.orders && w.engine.orders[r.id] == r && r.Px() > 0.0
  {
    BookGood(w, symbol);
    SideFacts(BookState(w, symbol), side);
    hide Good, BookRuns.Inv, Complete, BookRuns.DistinctIds, BookRuns.Apart, Positive;
    var r := w.engine.books[symbol].Queue(side)[i];
    assert BookRuns.Resting(r, side, symbol);
    assert Mirrors(w.engine.books[symbol], w.engine.orders, symbol);
  }

  lemma {:induction false} SymbolCrosses(w: World, id: OrderId)
    requires Sound(w) && id in w.engine.orders
    ensures var r := w.engine.orders[id]; Native.Lists(r.symbol) && r.symbol in w.engine.books && Wire(r).symbol == r.symbol && r.id == id
  {
  }

  lemma {:induction false} RefreshWires(orders: map<OrderId, OrderRec>, changed: seq<OrderRec>)
    requires forall i :: 0 <= i < |changed| ==> Wire(changed[i]) == changed[i]
    ensures Refresh(Wires(orders), changed) == Wires(Refresh(orders, changed))
  {
    hide Wire;
    forall id | id in orders
      ensures Refresh(Wires(orders), changed)[id] == Wires(Refresh(orders, changed))[id]
    {
      var r := Find(changed, id);
      if r.Some? {
        var i :| 0 <= i < |changed| && changed[i] == r.value;
      }
    }
  }

  /** An order that can be cancelled rests, so it crosses the wire unchanged. */
  lemma {:induction false} CancelledCrosses(w: World, id: OrderId)
    requires Sound(w) && CancelOrder(w.engine, id).1.Some?
    ensures id in w.engine.orders && Wire(w.engine.orders[id]) == w.engine.orders[id]
    ensures CancelOrder(w.engine, id).1.value == AfterCancel(w.engine.orders[id])
  {
    hide Good, CancelOrder, Cancel, ShouldRest, Find;
    CancelIs(w, id);
    Conservation.CancelWhen(w, id);
    var symbol := w.engine.orders[id].symbol;
    Conservation.RestsIff(w, symbol, id);
    var book := w.engine.books[symbol];
    var side := if Find(book.bids, id).Some? then Buy else Sell;
    var i := Place(book.Queue(side), Find(book.Queue(side), id).value);
    RestingCrosses(w, symbol, side, i);
  }

  lemma {:induction false} Place(queue: seq<OrderRec>, r: OrderRec) returns (i: nat)
    requires r in queue
    ensures i < |queue| && queue[i] == r
  {
    i :| 0 <= i < |queue| && queue[i] == r;
  }

  /** Cancelling does the same to the orders as they crossed the wire. */
  lemma {:induction false} CancelWires(w: World, id: OrderId)
    requires Sound(w)
    ensures var (e, r) := CancelOrder(w.engine, id);
            CancelOrder(w.engine.(orders := Wires(w.engine.orders)), id) == (e.(orders := Wires(e.orders)), r)
  {
    hide Good, Cancel, Refresh, Wire;
    if id in w.engine.orders {
      SymbolCrosses(w, id);
      var r := CancelOrder(w.engine, id).1;
      if r.Some? {
        CancelledCrosses(w, id);
        CancelKeepsFacts(w.engine.orders[id]);
        RefreshWires(w.engine.orders, [r.value]);
      }
    }
  }

  lemma {:induction false} CancelKeepsFacts(r: OrderRec)
    ensures Wire(AfterCancel(r)) == AfterCancel(Wire(r)) && AfterCancel(r).symbol == r.symbol
  {
  }

  lemma {:induction false} CancelSound(w: World, id: OrderId)
    requires Sound(w)
    ensures Sound(Next(Python, w, Cancellation(id)))
  {
    hide Good, CancelOrder, Cancel;
    CancelGood(w, id);
    CancelIs(w, id);
    var w' := Next(Python, w, Cancellation(id));
    assert w'.engine.books.Keys == w.engine.books.Keys;
    assert Priced(w'.engine.orders);
  }

  /** After a cancellation, what was held and is brought up to date is what the Python engine has. */
  lemma {:induction false} HeldAfterCancel(w: World, id: OrderId)
    requires Sound(w)
    ensures var orders := CancelOrder(w.engine, id).0.orders; Refreshed(w.engine.orders, Wires(orders)) == orders
  {
    hide Good, CancelOrder;
    CancelIs(w, id);
    var orders := CancelOrder(w.engine, id).0.orders;
    var now := Refreshed(w.engine.orders, Wires(orders));
    forall i | i in orders
      ensures now[i] == orders[i]
    {
    }
  }

  lemma {:induction false} CancelStep(p: Service, h: Service, id: OrderId)
    requires Sound(p.world) && InStep(p, h)
    ensures PyReply(p, Cancellation(id)) == HalReply(h, Cancellation(id)) <==> Safe(p.world, Cancellation(id))
    ensures Sound(PyNext(p, Cancellation(id)).world) && InStep(PyNext(p, Cancellation(id)), HalNext(h, Cancellation(id)))
  {
    hide Good, CancelOrder, Wire, Refreshed, Wires, TakeSnapshot, Fits, Backend.Deliver;
    var w := p.world;
    CancelWires(w, id);
    CancelSound(w, id);
    HeldAfterCancel(w, id);
    CancelIs(w, id);
    var (e, r) := CancelOrder(w.engine, id);
    if r.Some? {
      CancelledCrosses(w, id);
      DeliveredIff(TakeSnapshot(e.books[r.value.symbol], DEPTH));
    }
  }

  // ---------- submissions that are turned away ----------

  /** Both engines give the same reason exactly when the symbol is not cut into another book's. */
  lemma {:induction false} ReasonsAgreeIff(books: map<Symbol, Book>, ids: set<OrderId>, order: OrderRec)
    requires Listed(books)
    ensures Validate(books.Keys, ids, Wire(order)) == Validate(books.Keys, ids, order)
            <==> (Cut(order.symbol) in books ==> order.symbol in books)
    ensures order.symbol in books ==> Cut(order.symbol) == order.symbol
  {
  }

  lemma {:induction false} RejectedStep(p: Service, h: Service, order: OrderRec)
    requires Sound(p.world) && InStep(p, h) && NewOrder(Submission(order)) && Encodes(order)
    requires Cut(order.symbol) in p.world.engine.books ==> order.symbol in p.world.engine.books
    requires Validate(p.world.engine.books.Keys, p.world.engine.orders.Keys, order).Some?
    ensures PyReply(p, Submission(order)) == HalReply(h, Submission(order))
    ensures Sound(PyNext(p, Submission(order)).world) && InStep(PyNext(p, Submission(order)), HalNext(h, Submission(order)))
  {
    hide Good, Submit, Refresh, TakeSnapshot;
    var w := p.world;
    ReasonsAgreeIff(w.engine.books, w.engine.orders.Keys, order);
    RejectGood(Python, w, order);
    assert h.world.engine.orders.Keys == w.engine.orders.Keys;
    assert Labelled([], order.symbol) == [];
  }

  /** The answers give different reasons, or only one of them a reason. */
  lemma {:induction false} ReasonsDiffer(p: Service, h: Service, order: OrderRec)
    requires Sound(p.world) && InStep(p, h)
    requires Validate(p.world.engine.books.Keys, p.world.engine.orders.Keys, order)
             != Validate(p.world.engine.books.Keys, p.world.engine.orders.Keys, Wire(order))
    ensures PyReply(p, Submission(order)) != HalReply(h, Submission(order))
  {
    hide Good, Submit, Refresh, TakeSnapshot, Wire, AsSeen;
    OutcomeReason(Python, p.world.engine, order);
    OutcomeReason(Native, h.world.engine, Wire(order));
    assert h.world.engine.orders.Keys == p.world.engine.orders.Keys;
    SeenReason(SubmitOrder(Native, h.world.engine, Wire(order)).1, order);
  }

  lemma {:induction false} OutcomeReason(backend: Backend, e: Engine, order: OrderRec)
    ensures SubmitOrder(backend, e, order).1.rejection == Validate(e.books.Keys, e.orders.Keys, order)
  {
    hide Submit, Refresh, TakeSnapshot;
  }

  lemma {:induction false} SeenReason(out: Outcome, order: OrderRec)
    ensures AsSeen(out, order).rejection == out.rejection && AsSeen(out, order).trades == Labelled(out.trades, order.symbol)
  {
  }

  // ---------- submissions that are admitted ----------

  /** The taker's own price is used for nothing but its bound. */
  lemma {:induction false} PriceUnused(taker: OrderRec, price: Option<Price>, bound: Option<Price>, queue: seq<OrderRec>)
    ensures var m := Match(taker, bound, queue);
            Match(taker.(price := price), bound, queue) == Sweep(m.taker.(price := price), m.done, m.rest, m.trades)
    decreases |queue|
  {
    if taker.Remaining() > 0 && queue != [] && Crosses(taker.side, bound, queue[0].Px()) {
      var fill := Min(taker.Remaining(), queue[0].Remaining());
      if AfterFill(queue[0], fill).Remaining() == 0 {
        PriceUnused(taker.(filled := taker.filled + fill), price, bound, queue[1..]);
      }
    }
  }

  /** A market order with another price but the same bound leaves the same book and the same report. */
  lemma {:induction false} MarketPriceUnused(book: Book, order: OrderRec, price: Option<Price>, bound: Option<Price>)
    requires order.kind.Market?
    ensures var (book', report) := Submit(book, order, bound);
            Submit(book, order.(price := price), bound) == (book', report.(order := report.order.(price := price)))
  {
    hide Match, Insert;
    var queue := book.Queue(order.side.Opposite());
    PriceUnused(order, price, bound, queue);
    FixedKind(order, bound, queue);
  }

  lemma {:induction false} FixedKind(taker: OrderRec, bound: Option<Price>, queue: seq<OrderRec>)
    ensures var t := Match(taker, bound, queue).taker; t == taker.(filled := t.filled)
    decreases |queue|
  {
    if taker.Remaining() > 0 && queue != [] && Crosses(taker.side, bound, queue[0].Px()) {
      var fill := Min(taker.Remaining(), queue[0].Remaining());
      if AfterFill(queue[0], fill).Remaining() == 0 {
        FixedKind(taker.(filled := taker.filled + fill), bound, queue[1..]);
      }
    }
  }

  /** What is known of an order that passes every check, and of the queue it meets. */
  ghost predicate Meets(order: OrderRec, book: Book, queue: seq<OrderRec>) {
    && queue == book.Queue(order.side.Opposite()) && order.symbol == book.symbol && Cut(order.symbol) == order.symbol
    && order.filled == 0 && order.status == Pending && order.quantity > 0
    && (order.kind.Limit? ==> order.price.Some? && order.price.value > 0.0)
    && Positive(queue) && Sorted(order.side.Opposite(), queue)
    && forall i :: 0 <= i < |queue| ==> Wire(queue[i]) == queue[i]
  }

  lemma {:induction false} AdmittedMeets(w: World, order: OrderRec)
    requires Sound(w) && Admits(w, order)
    ensures var book := w.engine.books[order.symbol]; Meets(order, book, book.Queue(order.side.Opposite()))
  {
    hide Good, BookRuns.Inv, Mirrors, Wire;
    BookGood(w, order.symbol);
    var s := BookState(w, order.symbol);
    SideFacts(s, order.side);
    ReasonsAgreeIff(w.engine.books, w.engine.orders.Keys, order);
    QueueSorted(s, order.side.Opposite());
    var queue := s.book.Queue(order.side.Opposite());
    forall i | 0 <= i < |queue|
      ensures Wire(queue[i]) == queue[i]
    {
      RestingCrosses(w, order.symbol, order.side.Opposite(), i);
    }
  }

  lemma {:induction false} QueueSorted(s: BookRuns.State, side: Side)
    requires BookRuns.Inv(s)
    ensures Sorted(side, s.book.Queue(side))
  {
    BookRuns.SidesFlip(Buy, s.book.bids, s.book.asks, s);
    BookRuns.OrderSorts(side, s.book.Queue(side), s.arrival);
  }

  /** A harmless order does the same in both books; C++ only has it as it crossed the wire. */
  lemma {:induction false} HarmlessSubmit(book: Book, order: OrderRec, queue: seq<OrderRec>)
    requires Meets(order, book, queue) && Harmless(order, queue)
    ensures var (book', report) := Submit(book, order, order.price);
            Submit(book, Wire(order), Native.Bound(Wire(order))) == (book', report.(order := Wire(report.order)))
  {
    hide Harmless, Positive, Sorted, Match, Settle, Insert;
    SweepsAgreeIff(order, queue);
    var (book', report) := Submit(book, order, order.price);
    assert Submit(book, order, Native.Bound(order)) == (book', report);
    FinalIs(order, order.price, queue);
    assert report.order == order.(filled := report.order.filled, status := report.order.status);
    WireFacts(order);
    if order.kind.Market? {
      MarketPriceUnused(book, order, Wire(order).price, None);
    }
  }

  /** The makers a submission changes cross the wire unchanged. */
  lemma {:induction false} ChangedCross(order: OrderRec, book: Book, queue: seq<OrderRec>)
    requires Meets(order, book, queue)
    ensures var m := Match(order, order.price, queue);
            && (forall i :: 0 <= i < |m.done + m.rest| ==> Wire((m.done + m.rest)[i]) == (m.done + m.rest)[i])
            && (forall i :: 0 <= i < |m.trades| ==> m.trades[i].symbol == order.symbol)
  {
    hide Match, Positive, Sorted;
    ChangedAt(order, order.price, queue);
  }

  lemma {:induction false} LabelsUnchanged(trades: seq<Trade>, symbol: Symbol)
    requires forall i :: 0 <= i < |trades| ==> trades[i].symbol == symbol
    ensures Labelled(trades, symbol) == trades
  {
  }

  /** What the two engines make of a harmless order they both admit. */
  lemma {:induction false} HarmlessOutcome(w: World, order: OrderRec)
    requires Sound(w) && Admits(w, order) && Harmless(order, w.engine.books[order.symbol].Queue(order.side.Opposite()))
    ensures var (e, out) := SubmitOrder(Python, w.engine, order);
            var (e', out') := SubmitOrder(Native, w.engine.(orders := Wires(w.engine.orders)), Wire(order));
            && e' == e.(orders := Wires(e.orders)) && out.rejection.None? && out'.rejection.None? && out'.trades == out.trades
            && order.symbol in e.books && out.snapshot == Some(TakeSnapshot(e.books[order.symbol], DEPTH))
            && e.books[order.symbol] == Submit(w.engine.books[order.symbol], order, order.price).0
            && AsSeen(out', order) == out.(snapshot := Some(Native.Deliver(out.snapshot.value)))
  {
    hide Good, Submit, TakeSnapshot, Wire, Harmless, Meets, Refresh, Labelled, Backend.Bound;
    var book := w.engine.books[order.symbol];
    var queue := book.Queue(order.side.Opposite());
    AdmittedMeets(w, order);
    HarmlessSubmit(book, order, queue);
    ReasonsAgreeIff(w.engine.books, w.engine.orders.Keys, order);
    PythonBound(order);
    SubmissionParts(book, order, queue);
    var (book', report) := Submit(book, order, Python.Bound(order));
    var changed := report.done + book'.Queue(order.side.Opposite());
    RefreshWires(w.engine.orders, changed);
    LabelsUnchanged(report.trades, order.symbol);
    WireFacts(order);
    WireFacts(report.order);
    WireSymbol(order);
  }

  lemma {:induction false} PythonBound(order: OrderRec)
    ensures Python.Bound(order) == order.price
  {
  }

  lemma {:induction false} WireSymbol(order: OrderRec)
    ensures Wire(order).symbol == Cut(order.symbol) && Wire(order).side == order.side && Wire(order).kind == order.kind
  {
  }

  /** The pieces of a submission's report. */
  lemma {:induction false} SubmissionParts(book: Book, order: OrderRec, queue: seq<OrderRec>)
    requires Meets(order, book, queue)
    ensures var (book', report) := Submit(book, order, order.price);
            && report.order == order.(filled := report.order.filled, status := report.order.status)
            && (forall i :: 0 <= i < |report.trades| ==> report.trades[i].symbol == order.symbol)
            && var changed := report.done + book'.Queue(order.side.Opposite());
               forall i :: 0 <= i < |changed| ==> Wire(changed[i]) == changed[i]
  {
    hide Match, Settle, Insert, Positive, Sorted, Wire;
    FinalIs(order, order.price, queue);
    ChangedCross(order, book, queue);
  }

  /** An order that is not harmless trades differently. */
  lemma {:induction false} HarmfulDiffers(p: Service, h: Service, order: OrderRec)
    requires Sound(p.world) && InStep(p, h) && Admits(p.world, order) && Encodes(order)
    requires !Harmless(order, p.world.engine.books[order.symbol].Queue(order.side.Opposite()))
    ensures PyReply(p, Submission(order)) != HalReply(h, Submission(order))
  {
    hide Good, Submit, TakeSnapshot, Wire, Harmless, Refresh, Labelled, AsSeen, SubmitOrder, Match, Backend.Bound, Meets;
    var w := p.world;
    var book := w.engine.books[order.symbol];
    var queue := book.Queue(order.side.Opposite());
    AdmittedMeets(w, order);
    HarmfulTrades(book, order, queue);
    OutcomeTrades(Python, w.engine, order);
    ReasonsAgreeIff(w.engine.books, w.engine.orders.Keys, order);
    assert h.world.engine.orders.Keys == w.engine.orders.Keys;
    WireSymbol(order);
    OutcomeTrades(Native, h.world.engine, Wire(order));
    SeenReason(SubmitOrder(Native, h.world.engine, Wire(order)).1, order);
  }

  lemma {:induction false} OutcomeTrades(backend: Backend, e: Engine, order: OrderRec)
    requires Validate(e.books.Keys, e.orders.Keys, order).None?
    ensures SubmitOrder(backend, e, order).1.trades
              == Match(order, backend.Bound(order), e.books[order.symbol].Queue(order.side.Opposite())).trades
  {
    hide Match, Settle, Insert, Refresh, TakeSnapshot, Backend.Bound;
  }

  lemma {:induction false} HarmfulTrades(book: Book, order: OrderRec, queue: seq<OrderRec>)
    requires Meets(order, book, queue) && !Harmless(order, queue)
    ensures Labelled(Match(Wire(order), Native.Bound(Wire(order)), queue).trades, order.symbol) != Match(order, Python.Bound(order), queue).trades
  {
    hide Match, Positive, Sorted;
    SweepsAgreeIff(order, queue);
    PriceUnused(order, Wire(order).price, None, queue);
    ChangedAt(order, None, queue);
    LabelsUnchanged(Match(order, None, queue).trades, order.symbol);
  }

  /** After a harmless admission everything is in step again. */
  lemma {:induction false} HarmlessStep(p: Service, h: Service, order: OrderRec)
    requires Sound(p.world) && InStep(p, h) && Admits(p.world, order) && Encodes(order)
    requires Harmless(order, p.world.engine.books[order.symbol].Queue(order.side.Opposite()))
    ensures var book := Submit(p.world.engine.books[order.symbol], order, order.price).0;
            PyReply(p, Submission(order)) == HalReply(h, Submission(order)) <==> Fits(TakeSnapshot(book, DEPTH))
    ensures Sound(PyNext(p, Submission(order)).world) && InStep(PyNext(p, Submission(order)), HalNext(h, Submission(order)))
  {
    hide Good, Submit, TakeSnapshot, Wire, Harmless, Refresh, Labelled, AsSeen, SubmitOrder, Backend.Deliver, Fits, Refreshed, Wires, Validate;
    var w := p.world;
    HarmlessOutcome(w, order);
    HeldAfterSubmission(w, order);
    AdmissionSound(w, order);
    WireFacts(order);
    var (e, out) := SubmitOrder(Python, w.engine, order);
    DeliveredIff(out.snapshot.value);
    assert AsSeen(SubmitOrder(Native, h.world.engine, Wire(order)).1, order).order == out.order;
  }

  lemma {:induction false} AdmissionSound(w: World, order: OrderRec)
    requires Sound(w) && Admits(w, order)
    ensures Sound(Next(Python, w, Submission(order)))
  {
    hide Good, SubmitOrder, Names;
    NextGood(Python, w, Submission(order));
    SubmissionIs(Python, w, order);
    Progress(Python, w, order);
    BooksStaySame(w.engine, order);
    ReasonIsNone(w.engine, order);
    var w' := Next(Python, w, Submission(order));
    assert w'.engine.books.Keys == w.engine.books.Keys;
    forall id | id in w'.engine.orders && w'.engine.orders[id].kind.Limit?
      ensures w'.engine.orders[id].price.Some? && w'.engine.orders[id].price.value > 0.0
    {
      assert id in w.engine.orders ==> SameButProgress(w.engine.orders[id], w'.engine.orders[id]);
    }
  }

  lemma {:induction false} BooksStaySame(e: Engine, order: OrderRec)
    ensures SubmitOrder(Python, e, order).0.books.Keys == e.books.Keys
  {
    hide Submit, Refresh, Count, TakeSnapshot, EventOf;
  }

  lemma {:induction false} ReasonIsNone(e: Engine, order: OrderRec)
    requires Validate(e.books.Keys, e.orders.Keys, order).None?
    ensures SubmitOrder(Python, e, order).1.rejection.None?
  {
    OutcomeReason(Python, e, order);
  }

  lemma {:induction false} HeldAfterSubmission(w: World, order: OrderRec)
    requires Sound(w) && Admits(w, order)
    ensures var (e, out) := SubmitOrder(Python, w.engine, order);
            Refreshed(w.engine.orders[order.id := out.order], Wires(e.orders)) == e.orders
  {
    hide Good, SubmitOrder, Names;
    SubmissionIs(Python, w, order);
    Progress(Python, w, order);
    ReasonIsNone(w.engine, order);
    var (e, out) := SubmitOrder(Python, w.engine, order);
    var now := Refreshed(w.engine.orders[order.id := out.order], Wires(e.orders));
    forall id | id in e.orders
      ensures now[id] == e.orders[id]
    {
    }
  }

  // ---------- any call, any run ----------

  /** One call is answered alike exactly when it is safe; and if so, everything stays in step. */
  lemma {:induction false} AnsweredAlikeIff(p: Service, h: Service, call: Call)
    requires Sound(p.world) && InStep(p, h) && NewOrder(call)
    ensures PyReply(p, call) == HalReply(h, call) <==> Safe(p.world, call)
    ensures Safe(p.world, call) ==> Sound(PyNext(p, call).world) && InStep(PyNext(p, call), HalNext(h, call))
  {
    hide Sound, InStep, PyReply, HalReply, PyNext, HalNext, Harmless, Fits, TakeSnapshot, Submit;
    match call
    case Register(symbol) => RegisterStep(p, h, symbol);
    case Cancellation(id) => CancelStep(p, h, id);
    case Submission(order) =>
      SubmissionStep(p, h, order);
  }

  lemma {:induction false} SubmissionStep(p: Service, h: Service, order: OrderRec)
    requires Sound(p.world) && InStep(p, h) && NewOrder(Submission(order))
    ensures PyReply(p, Submission(order)) == HalReply(h, Submission(order)) <==> Safe(p.world, Submission(order))
    ensures Safe(p.world, Submission(order)) ==>
              Sound(PyNext(p, Submission(order)).world) && InStep(PyNext(p, Submission(order)), HalNext(h, Submission(order)))
  {
    hide Good, PyNext, HalNext, Harmless, Fits, TakeSnapshot, Submit, SubmitOrder, AsSeen, Wire, Priced, InStep;
    var w := p.world;
    ReasonsAgreeIff(w.engine.books, w.engine.orders.Keys, order);
    if Encodes(order) {
      if !(Cut(order.symbol) in w.engine.books ==> order.symbol in w.engine.books) {
        ReasonsDiffer(p, h, order);
      } else if Validate(w.engine.books.Keys, w.engine.orders.Keys, order).Some? {
        RejectedStep(p, h, order);
      } else if Harmless(order, w.engine.books[order.symbol].Queue(order.side.Opposite())) {
        HarmlessStep(p, h, order);
      } else {
        HarmfulDiffers(p, h, order);
      }
    }
  }

  /**
   Whatever is called, the service sees the same replies from both engines, and they
   end in step, if and only if every call is safe when it is made.
   */
  lemma {:induction false} EnginesAgreeIff(p: Service, h: Service, calls: seq<Call>)
    requires Sound(p.world) && InStep(p, h) && NewOrders(calls)
    ensures Replies(Python, p, calls) == Replies(Native, h, calls) <==> AllSafe(p.world, calls)
    ensures AllSafe(p.world, calls) ==> InStep(Served(Python, p, calls), Served(Native, h, calls))
    decreases |calls|
  {
    hide Sound, InStep, PyReply, HalReply, HalNext, Safe, Next;
    if calls != [] {
      AnsweredAlikeIff(p, h, calls[0]);
      var a, b := Replies(Python, p, calls), Replies(Native, h, calls);
      assert a[0] == PyReply(p, calls[0]) && b[0] == HalReply(h, calls[0]);
      assert a[1..] == Replies(Python, PyNext(p, calls[0]), calls[1..]) && b[1..] == Replies(Native, HalNext(h, calls[0]), calls[1..]);
      assert a == [a[0]] + a[1..] && b == [b[0]] + b[1..];
      if Safe(p.world, calls[0]) {
        EnginesAgreeIff(PyNext(p, calls[0]), HalNext(h, calls[0]), calls[1..]);
      }
    }
  }

  /** From the start: two new engines. */
  lemma {:induction false} NewEnginesAgreeIff(calls: seq<Call>)
    requires NewOrders(calls)
    ensures Replies(Python, NewService(), calls) == Replies(Native, NewService(), calls) <==> AllSafe(Start(), calls)
    ensures AllSafe(Start(), calls) ==> InStep(Served(Python, NewService(), calls), Served(Native, NewService(), calls))
  {
    StartGood();
    hide Good;
    EnginesAgreeIff(NewService(), NewService(), calls);
  }

  // ---------- orders that are harmless whatever rests ----------

  lemma {:induction false} RunsSound(w: World, calls: seq<Call>)
    requires Sound(w) && NewOrders(calls) && AllSafe(w, calls)
    ensures Sound(Played(Python, w, calls))
    decreases |calls|
  {
    hide Sound, Safe, Next;
    if calls != [] {
      var p := Service(w, w.engine.orders);
      var h := Service(w.(engine := w.engine.(orders := Wires(w.engine.orders))), w.engine.orders);
      AnsweredAlikeIff(p, h, calls[0]);
      RunsSound(Next(Python, w, calls[0]), calls[1..]);
    }
  }

  /** The orders that some book makes the two engines trade differently. */
  predicate Divisive(order: OrderRec) {
    && order.kind.Market? && order.price.Some? && (order.side.Buy? || order.price.value > 0.0)
    && order.quantity > 0 && Native.Lists(order.symbol)
  }

  /** Wherever a safe run leads, the order is turned away or harmless. */
  ghost predicate HarmlessAlways(order: OrderRec) {
    forall calls :: NewOrders(calls) && AllSafe(Start(), calls) ==>
      var e := Played(Python, Start(), calls).engine;
      Validate(e.books.Keys, e.orders.Keys, order).None? ==> Harmless(order, e.books[order.symbol].Queue(order.side.Opposite()))
  }

  lemma {:induction false} AllWithin(side: Side, bound: Option<Price>, queue: seq<OrderRec>)
    requires forall i :: 0 <= i < |queue| ==> Crosses(side, bound, queue[i].Px())
    ensures CrossingVolume(side, bound, queue) == Volume(queue)
  {
    if queue != [] {
      AllWithin(side, bound, queue[1..]);
    }
  }

  lemma {:induction false} NotDivisiveIsHarmless(w: World, order: OrderRec)
    requires Sound(w) && Validate(w.engine.books.Keys, w.engine.orders.Keys, order).None? && !Divisive(order)
    ensures Harmless(order, w.engine.books[order.symbol].Queue(order.side.Opposite()))
  {
    hide Good, Wire;
    if !Unpriced(order) {
      var queue := w.engine.books[order.symbol].Queue(Buy);
      forall i | 0 <= i < |queue|
        ensures Crosses(order.side, order.price, queue[i].Px())
      {
        RestingCrosses(w, order.symbol, Buy, i);
      }
      AllWithin(order.side, order.price, queue);
    }
  }

  /** A resting order just out of the reach of a priced market order, at a price the engines accept. */
  function OutOfReach(order: OrderRec): OrderRec
    requires order.price.Some?
  {
    var p := order.price.value;
    var price := if order.side.Sell? then p / 2.0 else if p > 0.0 then p + 1.0 else 1.0;
    OrderRec(order.id + 1, order.symbol, order.side.Opposite(), Limit, Some(price), 1, GTC, 0, Pending)
  }

  /** The first order of a book is shown alone. */
  lemma {:induction false} FirstShown(symbol: Symbol, maker: OrderRec)
    requires maker.quantity == 1 && maker.filled == 0
    ensures Fits(TakeSnapshot(Book(symbol, [], [], 0).WithQueue(maker.side, [maker]).(sequence := 1), DEPTH))
  {
    OneLevel(maker);
    hide Levels;
    NoLevels();
  }

  lemma {:induction false} OneLevel(r: OrderRec)
    ensures Levels([r]) == [Level(r.Px(), r.Remaining(), 1)]
  {
    assert [r][1..] == [] && Run([r], r.Px()) == 1 && [r][..1] == [r];
    assert Volume([r]) == r.Remaining();
  }

  lemma {:induction false} NoLevels()
    ensures Levels([]) == []
  {
  }

  /** The two calls after which a divisive order is no longer harmless. */
  lemma {:induction false} WitnessRun(order: OrderRec)
    requires Divisive(order)
    ensures var calls := [Register(order.symbol), Submission(OutOfReach(order))];
            var e := Played(Python, Start(), calls).engine;
            && NewOrders(calls) && AllSafe(Start(), calls)
            && order.symbol in e.books && e.orders.Keys == {order.id + 1}
            && e.books[order.symbol].Queue(order.side.Opposite()) == [OutOfReach(order).(status := Open)]
  {
    hide Submit, Fits, TakeSnapshot;
    var maker := OutOfReach(order);
    var calls := [Register(order.symbol), Submission(maker)];
    BookRuns.FirstRests(order.symbol, maker);
    FirstShown(order.symbol, maker.(status := Open));
    var w := Next(Python, Start(), calls[0]);
    assert w.engine.books == map[order.symbol := Book(order.symbol, [], [], 0)];
    assert calls[1..] == [calls[1]] && calls[1..][1..] == [];
    assert Safe(w, calls[1]);
    assert AllSafe(w, calls[1..]);
    var w' := Next(Python, w, calls[1]);
    assert Played(Python, w, calls[1..]) == w';
    assert w'.engine.orders.Keys == {order.id + 1};
  }

  lemma {:induction false} LoneMakerHarms(order: OrderRec)
    requires Divisive(order) && order.filled == 0
    ensures !Harmless(order, [OutOfReach(order).(status := Open)])
  {
    var queue := [OutOfReach(order).(status := Open)];
    assert queue[1..] == [];
    assert CrossingVolume(order.side, order.price, []) == 0;
    assert CrossingVolume(order.side, order.price, queue) == 0;
    assert Volume(queue) == 1;
  }

  /** A new order is harmless in every engine a safe run can reach exactly when it is not a market order that buys at a price or sells at a positive one. */
  lemma {:induction false} HarmlessAlwaysIff(order: OrderRec)
    requires NewOrder(Submission(order))
    ensures HarmlessAlways(order) <==> !Divisive(order)
  {
    if Divisive(order) {
      WitnessRun(order);
      hide Played, AllSafe, NewOrders, Harmless, OutOfReach;
      var calls := [Register(order.symbol), Submission(OutOfReach(order))];
      var e := Played(Python, Start(), calls).engine;
      var maker := OutOfReach(order).(status := Open);
      LoneMakerHarms(order);
      assert Validate(e.books.Keys, e.orders.Keys, order).None?;
    } else {
      StartGood();
      assert Sound(Start());
      forall calls | NewOrders(calls) && AllSafe(Start(), calls)
        ensures var e := Played(Python, Start(), calls).engine;
                Validate(e.books.Keys, e.orders.Keys, order).None? ==> Harmless(order, e.books[order.symbol].Queue(order.side.Opposite()))
      {
        RunsSound(Start(), calls);
        var w := Played(Python, Start(), calls);
        if Validate(w.engine.books.Keys, w.engine.orders.Keys, order).None? {
          NotDivisiveIsHarmless(w, order);
        }
      }
    }
  }
}
