/** What every order's status, every submission's report and every counter say, after any run of an engine. */
module Reports {
  import opened Domain
  import opened BookSpec
  import opened MatchTheory
  import opened BookRuns
  import opened EngineSpec
  import opened EngineRuns
  import Conservation
  import HalCache

  // ---------- statuses ----------

  /** The ids whose cancellation, somewhere along a run, found its order. */
  function Withdrawals(backend: Backend, w: World, calls: seq<Call>): set<OrderId>
    decreases |calls|
  {
    if calls == [] then {}
    else
      (if calls[0].Cancellation? && CancelOrder(w.engine, calls[0].id).1.Some? then {calls[0].id} else {})
      + Withdrawals(backend, Next(backend, w, calls[0]), calls[1..])
  }

  /** Good-till-cancelled and good-till-date limit orders rest. */
  predicate Stays(r: OrderRec) { r.kind.Limit? && (r.tif.GTC? || r.tif.GTD?) }

  /**
   The one status an admitted order can have, given whether it was withdrawn. A market
   order that is not filled keeps the status of what it got, and is never cancelled.
   */
  predicate StatusTells(r: OrderRec, withdrawn: bool) {
    && 0 <= r.filled <= r.quantity && r.quantity > 0
    && (r.status.Filled? <==> r.filled == r.quantity)
    && (r.status.PartiallyFilled? <==> 0 < r.filled < r.quantity && (r.kind.Market? || (Stays(r) && !withdrawn)))
    && (r.status.Pending? <==> r.filled == 0 && r.kind.Market?)
    && (r.status.Open? <==> r.filled == 0 && Stays(r) && !withdrawn)
    && (r.status.Cancelled? <==> r.filled < r.quantity && r.kind.Limit? && (withdrawn || r.tif.IOC? || r.tif.FOK?))
    && (withdrawn ==> Stays(r) && r.filled < r.quantity)
  }

  ghost predicate AllTell(w: World, withdrawn: set<OrderId>) {
    && withdrawn <= w.engine.orders.Keys
    && forall id :: id in w.engine.orders ==> StatusTells(w.engine.orders[id], id in withdrawn)
  }

  /** What a new order's record is in the end. */
  lemma {:induction false} FinalTells(order: OrderRec, bound: Option<Price>, queue: seq<OrderRec>)
    requires Positive(queue) && order.filled == 0 && order.status == Pending && order.quantity > 0
    ensures var m := Match(order, bound, queue);
            var final := Settle(m.taker);
            && StatusTells(final, false) && final == order.(filled := TradedQuantity(m.trades), status := final.status)
            && (m.trades == [] <==> final.filled == 0)
            && (Rests(m.taker) <==> Stays(order) && final.filled < final.quantity)
            && (Rests(m.taker) <==> ShouldRest(final))
  {
    MatchIsSweep(order, bound, queue);
    var m := Match(order, bound, queue);
    MatchNeverOverfills(order, bound, queue);
    TradesPositive(order, queue, m);
    TotalPositive(m.trades);
    hide Match;
  }

  /** A fill takes a resting order to partly filled or to filled. */
  lemma {:induction false} FillTells(r: OrderRec, quantity: int, side: Side, symbol: Symbol, withdrawn: bool)
    requires Resting(r, side, symbol) && 0 < quantity <= r.Remaining() && StatusTells(r, withdrawn)
    ensures StatusTells(AfterFill(r, quantity), withdrawn)
    ensures AfterFill(r, quantity).status.Filled? || ShouldRest(AfterFill(r, quantity))
  {
  }

  /** Everything an admission does, order by order. */
  lemma {:induction false} Admission(backend: Backend, w: World, order: OrderRec)
    requires Good(w) && Admits(w, order)
    ensures var queue := w.engine.books[order.symbol].Queue(order.side.Opposite());
            var m := Match(order, backend.Bound(order), queue);
            var w' := Next(backend, w, Submission(order));
            && AllResting(order.side.Opposite(), order.symbol, queue) && Positive(queue) && ChangesAre(order, queue, m)
            && Updated(w.engine.orders, w'.engine.orders, Settle(m.taker), queue, m.trades) && w'.log == w.log + m.trades
            && w'.admitted == w.admitted + [order.id]
  {
    hide Good, Next, Match, Settle, Refresh, Backend.Bound, Inv, Mirrors, Fresh, Updated, AllResting, BookRuns.DistinctIds, BookRuns.Apart, Positive, ChangesAre;
    var s := BookState(w, order.symbol);
    FreshInBook(w, order);
    SideFacts(s, order.side);
    AdmissionIs(backend, w, order);
    AdmissionUpdates(backend, w, order);
    ChangedAt(order, backend.Bound(order), s.book.Queue(order.side.Opposite()));
  }

  lemma {:induction false} UpdatedTells(orders: map<OrderId, OrderRec>, orders': map<OrderId, OrderRec>, final: OrderRec, queue: seq<OrderRec>, trades: seq<Trade>,
                                        side: Side, symbol: Symbol, withdrawn: set<OrderId>)
    requires Updated(orders, orders', final, queue, trades) && AllResting(side, symbol, queue) && StatusTells(final, false)
    requires withdrawn <= orders.Keys && forall id :: id in orders ==> StatusTells(orders[id], id in withdrawn)
    requires forall i :: 0 <= i < |trades| ==> 0 < trades[i].quantity <= queue[i].Remaining()
    ensures forall id :: id in orders' ==> StatusTells(orders'[id], id in withdrawn)
  {
    hide StatusTells;
    forall id | id in orders'
      ensures StatusTells(orders'[id], id in withdrawn)
    {
      if id != final.id && id in Ids(queue) {
        var i :| 0 <= i < |queue| && queue[i].id == id;
        if i < |trades| {
          FillTells(queue[i], trades[i].quantity, side, symbol, id in withdrawn);
        }
      }
    }
  }

  lemma {:induction false} StillAllTell(w: World, w': World, final: OrderRec, queue: seq<OrderRec>, trades: seq<Trade>, side: Side, symbol: Symbol,
                                        withdrawn: set<OrderId>)
    requires AllTell(w, withdrawn) && Updated(w.engine.orders, w'.engine.orders, final, queue, trades) && AllResting(side, symbol, queue)
    requires StatusTells(final, false) && forall i :: 0 <= i < |trades| && i < |queue| ==> 0 < trades[i].quantity <= queue[i].Remaining()
    ensures AllTell(w', withdrawn)
  {
    hide StatusTells;
    UpdatedKeys(w.engine.orders, w'.engine.orders, final, queue, trades);
    UpdatedTells(w.engine.orders, w'.engine.orders, final, queue, trades, side, symbol, withdrawn);
  }

  lemma {:induction false} AdmitsNew(w: World, order: OrderRec)
    requires Admits(w, order)
    ensures order.symbol in w.engine.books && order.id !in w.engine.orders && order.quantity > 0 && order.filled == 0 && order.status == Pending
  {
  }

  lemma {:induction false} AdmissionTells(backend: Backend, w: World, order: OrderRec, withdrawn: set<OrderId>)
    requires Good(w) && Admits(w, order) && AllTell(w, withdrawn)
    ensures AllTell(Next(backend, w, Submission(order)), withdrawn)
  {
    var queue := w.engine.books[order.symbol].Queue(order.side.Opposite());
    var m := Match(order, backend.Bound(order), queue);
    var w' := Next(backend, w, Submission(order));
    hide Good, Next, Match, Settle, Backend.Bound, StatusTells, Updated, AllResting, Positive, ChangesAre, Rests, ShouldRest, Stays, TradedQuantity, Admits,
      Validate, AllTell;
    AdmitsNew(w, order);
    Admission(backend, w, order);
    FinalTells(order, backend.Bound(order), queue);
    ChangeFacts(order, queue, m);
    StillAllTell(w, w', Settle(m.taker), queue, m.trades, order.side.Opposite(), order.symbol, withdrawn);
  }

  lemma {:induction false} CancelTells(r: OrderRec, withdrawn: bool)
    requires StatusTells(r, withdrawn) && ShouldRest(r)
    ensures StatusTells(AfterCancel(r), true) && !withdrawn && Stays(r)
  {
  }

  lemma {:induction false} WithdrawalTells(w: World, id: OrderId, withdrawn: set<OrderId>)
    requires Good(w) && AllTell(w, withdrawn)
    ensures var w' := Next(Python, w, Cancellation(id));
            AllTell(w', if CancelOrder(w.engine, id).1.Some? then withdrawn + {id} else withdrawn)
    ensures CancelOrder(w.engine, id).1.Some? ==> id in w.engine.orders && ShouldRest(w.engine.orders[id]) && id !in withdrawn
  {
    hide Good, Next, CancelOrder, StatusTells;
    CancelIs(w, id);
    Conservation.CancelWhen(w, id);
    if CancelOrder(w.engine, id).1.Some? {
      CancelTells(w.engine.orders[id], id in withdrawn);
    }
  }

  lemma {:induction false} NextTells(backend: Backend, w: World, call: Call, withdrawn: set<OrderId>)
    requires Good(w) && NewOrder(call) && AllTell(w, withdrawn)
    ensures AllTell(Next(backend, w, call), withdrawn + Withdrawals(backend, w, [call]))
  {
    hide Good, StatusTells, Validate;
    assert [call][1..] == [];
    match call
    case Register(_) =>
    case Cancellation(id) =>
      CancelAnyBackend(backend, w, call);
      WithdrawalTells(w, id, withdrawn);
    case Submission(order) =>
      if Validate(w.engine.books.Keys, w.engine.orders.Keys, order).None? {
        AdmissionTells(backend, w, order, withdrawn);
      }
  }

  lemma {:induction false} RunTells(backend: Backend, w: World, calls: seq<Call>, withdrawn: set<OrderId>)
    requires Good(w) && NewOrders(calls) && AllTell(w, withdrawn)
    ensures AllTell(Played(backend, w, calls), withdrawn + Withdrawals(backend, w, calls))
    decreases |calls|
  {
    hide Good, AllTell, Next, CancelOrder;
    if calls == [] {
      assert withdrawn + {} == withdrawn;
    } else {
      var w' := Next(backend, w, calls[0]);
      var more := Withdrawals(backend, w, [calls[0]]);
      assert [calls[0]][1..] == [];
      NextGood(backend, w, calls[0]);
      NextTells(backend, w, calls[0], withdrawn);
      RunTells(backend, w', calls[1..], withdrawn + more);
      assert withdrawn + more + Withdrawals(backend, w', calls[1..]) == withdrawn + Withdrawals(backend, w, calls);
    }
  }

  /** Along any run, exactly which status every admitted order has. */
  lemma {:induction false} StatusesTell(backend: Backend, calls: seq<Call>, id: OrderId)
    requires NewOrders(calls) && id in Played(backend, Start(), calls).engine.orders
    ensures StatusTells(Played(backend, Start(), calls).engine.orders[id], id in Withdrawals(backend, Start(), calls))
  {
    StartGood();
    RunTells(backend, Start(), calls, {});
    hide Played, Withdrawals, StatusTells;
    assert {} + Withdrawals(backend, Start(), calls) == Withdrawals(backend, Start(), calls);
  }

  /** Only what was asked to be cancelled is withdrawn. */
  lemma {:induction false} WithdrawnWasAsked(backend: Backend, w: World, calls: seq<Call>, id: OrderId)
    requires id in Withdrawals(backend, w, calls)
    ensures Cancellation(id) in calls
    decreases |calls|
  {
    hide Next, CancelOrder;
    if calls[0] != Cancellation(id) {
      WithdrawnWasAsked(backend, Next(backend, w, calls[0]), calls[1..], id);
    }
  }

  // ---------- reports ----------

  /** One execution, told from the orders as they were: the maker's price, within the taker's limit. */
  predicate TradeTells(orders: map<OrderId, OrderRec>, order: OrderRec, t: Trade) {
    && t.symbol == order.symbol && t.aggressor == order.side && t.taker == order.id && t.quantity > 0
    && t.maker in orders
    && var maker := orders[t.maker];
       && ShouldRest(maker) && maker.symbol == order.symbol && maker.side != order.side
       && maker.price == Some(t.price) && t.quantity <= maker.quantity - maker.filled
       && (order.kind.Limit? ==> order.price.Some? && (if order.side.Buy? then t.price <= order.price.value else t.price >= order.price.value))
  }

  /** Why an order is refused. */
  predicate RefusalTells(books: map<Symbol, Book>, orders: map<OrderId, OrderRec>, order: OrderRec, rejection: Option<RejectReason>) {
    var unpriced := order.kind.Limit? && (order.price.None? || order.price.value <= 0.0);
    && (rejection == Some(SymbolNotFound) <==> order.symbol !in books)
    && (rejection == Some(DuplicateOrderId) <==> order.symbol in books && order.id in orders)
    && (rejection == Some(InvalidQuantity) <==> order.symbol in books && order.id !in orders && order.quantity <= 0)
    && (rejection == Some(InvalidPrice) <==> order.symbol in books && order.id !in orders && order.quantity > 0 && unpriced)
  }

  /** Which event a submission is reported with. */
  predicate EventTells(out: Outcome) {
    && (out.event.OrderRejected? <==> out.rejection.Some?)
    && (out.event.OrderFilled? <==> out.rejection.None? && out.order.status.Filled?)
    && (out.event.OrderPartiallyFilled? <==> out.trades != [] && out.order.filled < out.order.quantity)
    && (out.event.OrderAcked? <==> out.rejection.None? && out.trades == [])
  }

  /** An order that was refused comes back marked, and with nothing else. */
  predicate RejectedTells(order: OrderRec, out: Outcome) {
    out.order == order.(status := Rejected) && out.trades == [] && !out.resting && out.snapshot.None?
  }

  /** An order that was admitted: its fills are its trades, and it rests exactly if it may and something is left. */
  predicate AdmittedTells(orders: map<OrderId, OrderRec>, order: OrderRec, out: Outcome) {
    && StatusTells(out.order, false) && out.order == order.(filled := TradedQuantity(out.trades), status := out.order.status)
    && (forall i :: 0 <= i < |out.trades| ==> TradeTells(orders, order, out.trades[i]))
    && (out.resting <==> Stays(order) && out.order.filled < out.order.quantity)
  }

  lemma {:induction false} LimitBound(backend: Backend, order: OrderRec)
    requires order.kind.Limit? && order.price.Some?
    ensures backend.Bound(order) == order.price
  {
  }

  lemma {:induction false} OneTradeTells(orders: map<OrderId, OrderRec>, order: OrderRec, bound: Option<Price>, maker: OrderRec, quantity: int)
    requires Resting(maker, order.side.Opposite(), order.symbol) && maker.id in orders && orders[maker.id] == maker
    requires 0 < quantity <= maker.Remaining() && Crosses(order.side, bound, maker.Px())
    requires order.kind.Limit? ==> order.price.Some? && bound == order.price
    ensures TradeTells(orders, order, TradeOf(order, maker, quantity))
  {
  }

  lemma {:induction false} WithinLimit(order: OrderRec, bound: Option<Price>, queue: seq<OrderRec>)
    requires Positive(queue)
    ensures var trades := Match(order, bound, queue).trades;
            |trades| <= |queue| && forall i :: 0 <= i < |trades| ==> Crosses(order.side, bound, queue[i].Px())
  {
    MatchIsSweep(order, bound, queue);
    hide Match;
  }

  lemma {:induction false} TradesTell(backend: Backend, w: World, order: OrderRec)
    requires Good(w) && Admits(w, order)
    ensures var trades := Match(order, backend.Bound(order), w.engine.books[order.symbol].Queue(order.side.Opposite())).trades;
            forall i :: 0 <= i < |trades| ==> TradeTells(w.engine.orders, order, trades[i])
  {
    var queue, bound := w.engine.books[order.symbol].Queue(order.side.Opposite()), backend.Bound(order);
    var m := Match(order, bound, queue);
    if order.kind.Limit? {
      LimitBound(backend, order);
    }
    hide Good, Next, Settle, Match, Backend.Bound, TradeOf, TradeTells, Crosses, Resting, AfterFill;
    Admission(backend, w, order);
    WithinLimit(order, bound, queue);
    forall i | 0 <= i < |m.trades|
      ensures TradeTells(w.engine.orders, order, m.trades[i])
    {
      OneTradeTells(w.engine.orders, order, bound, queue[i], m.trades[i].quantity);
    }
  }

  lemma {:induction false} Accepted(backend: Backend, e: Engine, order: OrderRec)
    requires Validate(e.books.Keys, e.orders.Keys, order).None?
    ensures var (e', out) := SubmitOrder(backend, e, order);
            var m := Match(order, backend.Bound(order), e.books[order.symbol].Queue(order.side.Opposite()));
            && out.order == Settle(m.taker) && out.trades == m.trades && out.resting == Rests(m.taker) && out.rejection.None?
            && out.event == EventOf(out.order, out.trades)
            && order.symbol in e'.books && out.snapshot == Some(backend.Show(TakeSnapshot(e'.books[order.symbol], 10)))
  {
    hide Match, Settle, Insert, Refresh, Backend.Bound, Count, EventOf, BookSpec.TakeSnapshot;
  }

  lemma {:induction false} KindTells(out: Outcome)
    requires StatusTells(out.order, false) && (out.trades == [] <==> out.order.filled == 0)
    requires out.rejection.None? && out.event == EventOf(out.order, out.trades)
    ensures EventTells(out)
  {
  }

  lemma {:induction false} AdmissionReport(backend: Backend, w: World, order: OrderRec)
    requires Good(w) && Admits(w, order)
    ensures var (e', out) := SubmitOrder(backend, w.engine, order);
            && EventTells(out) && AdmittedTells(w.engine.orders, order, out) && (out.trades == [] <==> out.order.filled == 0)
            && order.symbol in e'.books && out.snapshot == Some(backend.Show(TakeSnapshot(e'.books[order.symbol], 10)))
  {
    var queue := w.engine.books[order.symbol].Queue(order.side.Opposite());
    hide Good, Next, Match, Settle, Backend.Bound, StatusTells, Updated, AllResting, Positive, ChangesAre, TradeTells, SubmitOrder, EventTells, BookSpec.TakeSnapshot;
    Admission(backend, w, order);
    TradesTell(backend, w, order);
    FinalTells(order, backend.Bound(order), queue);
    Accepted(backend, w.engine, order);
    KindTells(SubmitOrder(backend, w.engine, order).1);
  }

  lemma {:induction false} Refused(backend: Backend, e: Engine, order: OrderRec)
    ensures var out := SubmitOrder(backend, e, order).1;
            && RefusalTells(e.books, e.orders, order, out.rejection) && out.rejection == Validate(e.books.Keys, e.orders.Keys, order)
            && (out.rejection.Some? ==> RejectedTells(order, out) && EventTells(out))
  {
    hide BookSpec.Submit, Refresh, Count, EventOf, BookSpec.TakeSnapshot;
  }

  /** After any run, exactly what a submission reports. */
  lemma {:induction false} ReportTells(backend: Backend, calls: seq<Call>, order: OrderRec)
    requires NewOrders(calls) && NewOrder(Submission(order))
    ensures var e := Played(backend, Start(), calls).engine;
            var (e', out) := SubmitOrder(backend, e, order);
            && RefusalTells(e.books, e.orders, order, out.rejection) && EventTells(out)
            && (out.rejection.Some? ==> RejectedTells(order, out))
            && (out.rejection.None? ==> && AdmittedTells(e.orders, order, out) && order.symbol in e'.books
                                        && out.snapshot == Some(backend.Show(TakeSnapshot(e'.books[order.symbol], 10))))
  {
    StartGood();
    PlayedGood(backend, Start(), calls);
    var w := Played(backend, Start(), calls);
    hide Good, Played, SubmitOrder, RefusalTells, EventTells, RejectedTells, AdmittedTells, Validate, BookSpec.TakeSnapshot;
    Refused(backend, w.engine, order);
    if Validate(w.engine.books.Keys, w.engine.orders.Keys, order).None? {
      AdmissionReport(backend, w, order);
    }
  }

  lemma {:induction false} SeenKind(out: Outcome, order: OrderRec)
    requires EventTells(out) && out.order.quantity == order.quantity && (out.rejection.Some? ==> RejectedTells(out.order, out))
    requires out.rejection.None? ==> StatusTells(out.order, false) && (out.trades == [] <==> out.order.filled == 0)
    ensures EventTells(HalCache.AsSeen(out, order))
  {
  }

  /** The same of what the C++ engine's caller sees: kind of event, status, fill, trades and refusal. */
  lemma {:induction false} SeenReportTells(calls: seq<Call>, order: OrderRec)
    requires NewOrders(calls) && NewOrder(Submission(order))
    ensures var e := Played(Native, Start(), calls).engine;
            var sent := HalCache.Wire(order);
            var out := HalCache.AsSeen(SubmitOrder(Native, e, sent).1, order);
            && RefusalTells(e.books, e.orders, sent, out.rejection) && EventTells(out)
            && (out.rejection.Some? ==> RejectedTells(order, out))
            && (out.rejection.None? ==> && StatusTells(out.order, false) && out.order.filled == TradedQuantity(out.trades)
                                        && (forall i :: 0 <= i < |out.trades| ==> TradeTells(e.orders, sent, out.trades[i].(symbol := sent.symbol)))
                                        && (out.resting <==> Stays(order) && out.order.filled < out.order.quantity))
  {
    var w := Played(Native, Start(), calls);
    var sent := HalCache.Wire(order);
    var native := SubmitOrder(Native, w.engine, sent).1;
    HalCache.WireFacts(order);
    StartGood();
    PlayedGood(Native, Start(), calls);
    hide Good, Played, SubmitOrder, RefusalTells, EventTells, TradeTells, RejectedTells, AdmittedTells, StatusTells, Stays, Validate, BookSpec.TakeSnapshot,
      HalCache.AsSeen, HalCache.Wire, TradedQuantity;
    ReportTells(Native, calls, sent);
    Refused(Native, w.engine, sent);
    SeenIs(native, order);
    if native.rejection.None? {
      AdmissionReport(Native, w, sent);
      AdmittedOrder(w.engine.orders, sent, native);
      SeenAdmitted(w.engine.orders, order, sent, native);
    } else {
      SeenRejected(order, sent, native);
    }
    SeenKind(native, order);
  }

  lemma {:induction false} AdmittedOrder(orders: map<OrderId, OrderRec>, order: OrderRec, out: Outcome)
    requires AdmittedTells(orders, order, out)
    ensures StatusTells(out.order, false) && out.order.quantity == order.quantity
  {
    hide StatusTells, TradeTells;
  }

  lemma {:induction false} SeenRejected(order: OrderRec, sent: OrderRec, out: Outcome)
    requires RejectedTells(sent, out) && sent == HalCache.Wire(order) && out.rejection.Some?
    ensures RejectedTells(order, HalCache.AsSeen(out, order)) && out.order.quantity == order.quantity && RejectedTells(out.order, out)
  {
  }

  lemma {:induction false} SeenAdmitted(orders: map<OrderId, OrderRec>, order: OrderRec, sent: OrderRec, out: Outcome)
    requires AdmittedTells(orders, sent, out) && sent == HalCache.Wire(order)
    ensures var seen := HalCache.AsSeen(out, order);
            && StatusTells(seen.order, false) && seen.order.filled == TradedQuantity(seen.trades)
            && (forall i :: 0 <= i < |seen.trades| ==> TradeTells(orders, sent, seen.trades[i].(symbol := sent.symbol)))
            && (seen.resting <==> Stays(order) && seen.order.filled < seen.order.quantity)
  {
    SeenTrades(out, order, sent.symbol);
    SeenIs(out, order);
    hide HalCache.AsSeen;
  }

  lemma {:induction false} SeenTrades(out: Outcome, order: OrderRec, symbol: Symbol)
    requires forall i :: 0 <= i < |out.trades| ==> out.trades[i].symbol == symbol
    ensures var seen := HalCache.AsSeen(out, order).trades;
            && |seen| == |out.trades| && TradedQuantity(seen) == TradedQuantity(out.trades)
            && forall i :: 0 <= i < |seen| ==> seen[i].(symbol := symbol) == out.trades[i]
  {
    SameQuantities(out.trades, order.symbol);
  }

  lemma {:induction false} SeenIs(out: Outcome, order: OrderRec)
    ensures var seen := HalCache.AsSeen(out, order);
            && seen.order == order.(filled := out.order.filled, status := out.order.status) && seen.resting == out.resting
            && seen.rejection == out.rejection && (seen.snapshot.None? <==> out.snapshot.None?)
  {
  }

  lemma {:induction false} SameQuantities(trades: seq<Trade>, symbol: Symbol)
    ensures TradedQuantity(HalCache.Labelled(trades, symbol)) == TradedQuantity(trades)
  {
    if trades != [] {
      SameQuantities(trades[1..], symbol);
      assert HalCache.Labelled(trades, symbol)[1..] == HalCache.Labelled(trades[1..], symbol);
    }
  }
}
