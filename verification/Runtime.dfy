/**
 The strategy runtime: strategies that react to exchange events taken from a bounded
 queue, the orders they own, and the switch that stops them.
 */
module Runtime {
  import opened Domain
  import opened BookSpec
  import opened EngineSpec
  import opened EngineRuns
  import opened Conservation
  import BookRuns
  import EventBus

  type StrategyId = string

  /** What the runtime subscribes to. */
  datatype Event = TradeEvent(trade: Trade) | BookUpdateEvent(symbol: Symbol, snapshot: Snapshot)

  /** `quotes` marks a market maker, whose every answer is at most one bid and one ask. */
  datatype Strategy = Strategy(symbol: Symbol, running: bool, replaceOpen: bool, quotes: bool, position: int)

  datatype Owner = Owner(strategy: StrategyId, side: Side)

  /** An order a strategy asks for; `passes` is what the risk limits would say of it. */
  datatype Proposal = Proposal(strategy: StrategyId, order: OrderRec, passes: bool)

  /** What a strategy's callback does with an event. */
  datatype Response = Raises | Proposes(proposals: seq<Proposal>)

  /** The events of one result: its trades, then the book. */
  function EventsOf(symbol: Symbol, trades: seq<Trade>, snapshot: Option<Snapshot>): (events: seq<Event>)
    ensures |events| == |trades| + if snapshot.Some? then 1 else 0
  {
    seq(|trades|, i requires 0 <= i < |trades| => TradeEvent(trades[i]))
    + if snapshot.Some? then [BookUpdateEvent(symbol, snapshot.value)] else []
  }

  /** How many of `n` events a queue of this size still takes. */
  function Taken(capacity: nat, size: nat, n: nat): (k: nat)
    ensures k <= n
  {
    if capacity == 0 then n else if size >= capacity then 0 else Min(n, capacity - size)
  }

  /** The exchange as the runtime meets it: the engine, who owns which order, and the queue of events. */
  datatype Floor = Floor(engine: Engine, owned: map<OrderId, Owner>, queue: seq<Event>, dropped: nat)

  /** Events are taken as long as there is room; the others are dropped and counted. */
  function Offered(capacity: nat, f: Floor, events: seq<Event>): (g: Floor)
    ensures g.engine == f.engine && g.owned == f.owned
  {
    var k := Taken(capacity, |f.queue|, |events|);
    f.(queue := f.queue + events[..k], dropped := f.dropped + |events| - k)
  }

  /** Trades first, in order, then the book; a bounded queue takes what it has room for and not one event less. */
  lemma {:induction false} OfferedTells(capacity: nat, f: Floor, symbol: Symbol, trades: seq<Trade>, snapshot: Option<Snapshot>)
    requires capacity > 0 ==> |f.queue| <= capacity
    ensures var g := Offered(capacity, f, EventsOf(symbol, trades, snapshot));
            var n, size := |trades| + (if snapshot.Some? then 1 else 0), |f.queue|;
            && f.queue <= g.queue && |g.queue| - size + g.dropped - f.dropped == n
            && (capacity == 0 || size + n <= capacity ==> g.dropped == f.dropped)
            && (capacity > 0 && size + n > capacity ==> |g.queue| == capacity)
            && (forall i :: 0 <= i < |trades| && size + i < |g.queue| ==> g.queue[size + i] == TradeEvent(trades[i]))
            && (snapshot.Some? && g.dropped == f.dropped ==> g.queue[|g.queue| - 1] == BookUpdateEvent(symbol, snapshot.value))
  {
    var events := EventsOf(symbol, trades, snapshot);
    EventsAt(symbol, trades, snapshot);
    hide EventsOf;
    assert events[..|events|] == events;
  }

  lemma {:induction false} EventsAt(symbol: Symbol, trades: seq<Trade>, snapshot: Option<Snapshot>)
    ensures var events := EventsOf(symbol, trades, snapshot);
            && (forall i :: 0 <= i < |trades| ==> events[i] == TradeEvent(trades[i]))
            && (snapshot.Some? ==> events[|trades|] == BookUpdateEvent(symbol, snapshot.value))
  {
  }

  /** An order goes to the exchange, and what comes of it into the queue. */
  function Sent(capacity: nat, f: Floor, order: OrderRec): (g: Floor)
    ensures g.owned == f.owned && g.engine == EngineSpec.SubmitOrder(Python, f.engine, order).0
  {
    var (e, out) := EngineSpec.SubmitOrder(Python, f.engine, order);
    Offered(capacity, f.(engine := e), EventsOf(order.symbol, out.trades, out.snapshot))
  }

  /** A cancellation goes to the exchange; one that finds its order puts the book into the queue. */
  function Withdrawn(capacity: nat, f: Floor, id: OrderId): (g: Floor)
    ensures g.owned == f.owned && g.engine == EngineSpec.CancelOrder(f.engine, id).0
  {
    var (e, cancelled) := EngineSpec.CancelOrder(f.engine, id);
    if cancelled.Some? && cancelled.value.symbol in e.books then
      Offered(capacity, f.(engine := e), EventsOf(cancelled.value.symbol, [], Some(TakeSnapshot(e.books[cancelled.value.symbol], DEPTH))))
    else f.(engine := e)
  }

  /** These orders are withdrawn, each once, in some order. */
  ghost predicate WithdrawnAll(capacity: nat, ids: set<OrderId>, f: Floor, g: Floor)
    decreases |ids|
  {
    if ids == {} then g == f
    else exists id, m :: id in ids && WithdrawnAll(capacity, ids - {id}, f, m) && g == Withdrawn(capacity, m, id)
  }

  /** A strategy's order goes out under a new id, owned before it does. */
  ghost predicate PlacedOne(capacity: nat, sid: StrategyId, order: OrderRec, id: OrderId, f: Floor, g: Floor) {
    && id !in f.owned && id !in f.engine.orders
    && g == Sent(capacity, f.(owned := f.owned[id := Owner(sid, order.side)]), order.(id := id, filled := 0, status := Pending))
  }

  /** A strategy's orders go out one after the other. */
  ghost predicate Placed(capacity: nat, sid: StrategyId, orders: seq<OrderRec>, f: Floor, g: Floor) {
    if orders == [] then g == f
    else
      var front, last := orders[..|orders| - 1], orders[|orders| - 1];
      exists id, m :: Placed(capacity, sid, front, f, m) && PlacedOne(capacity, sid, last, id, m, g)
  }

  /** What one strategy's answer does at the exchange; `mine` are its open orders. */
  ghost predicate AnsweredWith(capacity: nat, sid: StrategyId, strategy: Strategy, mine: set<OrderId>, response: Response, update: bool, f: Floor, g: Floor) {
    match response
    case Raises => WithdrawnAll(capacity, mine, f, g)
    case Proposes(proposals) =>
      exists m :: WithdrawnAll(capacity, if Replaces(response, update, strategy) then mine else {}, f, m)
                  && Placed(capacity, sid, AcceptableOrders(sid, strategy, proposals), m, g)
  }

  /** What a strategy's callback returns, which may depend on the strategy, the event and the engine at that moment. */
  type Callbacks = (StrategyId, Strategy, Event, Engine) -> Response

  /** The running strategies of the event's instrument answer in turn, each seeing what the answers before it did. */
  ghost predicate AllAnswered(capacity: nat, names: seq<StrategyId>, strategies: map<StrategyId, Strategy>, open: map<StrategyId, set<OrderId>>,
                              event: Event, callbacks: Callbacks, responses: map<StrategyId, Response>, f: Floor, g: Floor)
    decreases |names|
  {
    if names == [] then g == f
    else
      var front, sid := names[..|names| - 1], names[|names| - 1];
      if !Asked(strategies, sid, About(event)) then AllAnswered(capacity, front, strategies, open, event, callbacks, responses, f, g)
      else
        && sid in responses && sid in open
        && exists m :: && AllAnswered(capacity, front, strategies, open, event, callbacks, responses, f, m)
                       && responses[sid] == callbacks(sid, strategies[sid], event, m.engine)
                       && AnsweredWith(capacity, sid, strategies[sid], open[sid], responses[sid], event.BookUpdateEvent?, m, g)
  }

  /** An order that is no longer active is no longer open. */
  function Closing(open: map<StrategyId, set<OrderId>>, owned: map<OrderId, Owner>, orders: map<OrderId, OrderRec>, id: OrderId): map<StrategyId, set<OrderId>> {
    if id in owned && owned[id].strategy in open && !(id in orders && orders[id].IsActive())
    then open[owned[id].strategy := open[owned[id].strategy] - {id}] else open
  }

  /** What an event does before anyone is asked: a trade closes both its orders if they are done. */
  function ClosedBy(open: map<StrategyId, set<OrderId>>, owned: map<OrderId, Owner>, orders: map<OrderId, OrderRec>, event: Event): map<StrategyId, set<OrderId>> {
    if event.TradeEvent? then Closing(Closing(open, owned, orders, event.trade.maker), owned, orders, event.trade.taker) else open
  }

  /** A trade is booked with the owners of its two orders. */
  function BookedBy(strategies: map<StrategyId, Strategy>, owned: map<OrderId, Owner>, event: Event): map<StrategyId, Strategy> {
    map sid | sid in strategies ::
      strategies[sid].(position := strategies[sid].position + (if event.TradeEvent? then Signed(event.trade, owned, sid) else 0))
  }

  /** The book of an instrument as the last of these updates shows it. */
  function LastUpdate(events: seq<Event>, symbol: Symbol): Option<Snapshot>
    decreases |events|
  {
    if events == [] then None
    else
      var last := events[|events| - 1];
      if last.BookUpdateEvent? && last.symbol == symbol then Some(last.snapshot) else LastUpdate(events[..|events| - 1], symbol)
  }

  /** The last update of every book shows it as it is; a book without one is untouched. */
  ghost predicate Announced(events: seq<Event>, books: map<Symbol, Book>) {
    forall symbol ::
      match LastUpdate(events, symbol)
      case Some(shot) => symbol in books && shot == TakeSnapshot(books[symbol], DEPTH)
      case None => symbol in books ==> books[symbol] == Book(symbol, [], [], 0)
  }

  lemma {:induction false} UpdateOrNot(events: seq<Event>, event: Event, symbol: Symbol)
    ensures LastUpdate(events + [event], symbol)
              == if event.BookUpdateEvent? && event.symbol == symbol then Some(event.snapshot) else LastUpdate(events, symbol)
  {
    assert (events + [event])[..|events|] == events;
  }

  lemma {:induction false} Joined<T>(a: seq<T>, b: seq<T>, c: seq<T>)
    ensures a + (b + c) == a + b + c
  {
  }

  lemma {:induction false} EventsSplit(symbol: Symbol, trades: seq<Trade>, snapshot: Option<Snapshot>)
    ensures snapshot.Some? ==> EventsOf(symbol, trades, snapshot) == EventsOf(symbol, trades, None) + [BookUpdateEvent(symbol, snapshot.value)]
    ensures trades != [] ==>
              EventsOf(symbol, trades, None) == EventsOf(symbol, trades[..|trades| - 1], None) + [TradeEvent(trades[|trades| - 1])]
    ensures trades == [] ==> EventsOf(symbol, trades, None) == []
  {
  }

  /** Trades announce no book. */
  lemma {:induction false} TradesShowNoBook(events: seq<Event>, symbol: Symbol, trades: seq<Trade>, other: Symbol)
    ensures LastUpdate(events + EventsOf(symbol, trades, None), other) == LastUpdate(events, other)
    decreases |trades|
  {
    hide EventsOf, LastUpdate;
    EventsSplit(symbol, trades, None);
    if trades == [] {
      assert events + [] == events;
    } else {
      var front, last := trades[..|trades| - 1], trades[|trades| - 1];
      TradesShowNoBook(events, symbol, front, other);
      UpdateOrNot(events + EventsOf(symbol, front, None), TradeEvent(last), other);
      Joined(events, EventsOf(symbol, front, None), [TradeEvent(last)]);
    }
  }

  lemma {:induction false} LastOf(events: seq<Event>, symbol: Symbol, trades: seq<Trade>, snapshot: Option<Snapshot>, other: Symbol)
    ensures LastUpdate(events + EventsOf(symbol, trades, snapshot), other)
              == if snapshot.Some? && other == symbol then snapshot else LastUpdate(events, other)
  {
    hide EventsOf, LastUpdate;
    TradesShowNoBook(events, symbol, trades, other);
    EventsSplit(symbol, trades, snapshot);
    if snapshot.Some? {
      UpdateOrNot(events + EventsOf(symbol, trades, None), BookUpdateEvent(symbol, snapshot.value), other);
      Joined(events, EventsOf(symbol, trades, None), [BookUpdateEvent(symbol, snapshot.value)]);
    }
  }

  /** A result that carries the new book of the one instrument that changed. */
  lemma {:induction false} AnnouncedAgain(events: seq<Event>, symbol: Symbol, trades: seq<Trade>, book: Book, was: map<Symbol, Book>, now: map<Symbol, Book>)
    requires Announced(events, was) && now == was[symbol := book]
    ensures Announced(events + EventsOf(symbol, trades, Some(TakeSnapshot(book, DEPTH))), now)
  {
    hide BookSpec.TakeSnapshot, LastUpdate;
    forall other
      ensures match LastUpdate(events + EventsOf(symbol, trades, Some(TakeSnapshot(book, DEPTH))), other)
              case Some(shot) => other in now && shot == TakeSnapshot(now[other], DEPTH)
              case None => other in now ==> now[other] == Book(other, [], [], 0)
    {
      LastOf(events, symbol, trades, Some(TakeSnapshot(book, DEPTH)), other);
    }
  }

  lemma {:induction false} SubmissionShows(e: Engine, order: OrderRec)
    ensures var (e', out) := EngineSpec.SubmitOrder(Python, e, order);
            if out.rejection.Some? then e'.books == e.books && out.trades == [] && out.snapshot.None?
            else order.symbol in e'.books && e'.books == e.books[order.symbol := e'.books[order.symbol]]
                 && out.snapshot == Some(TakeSnapshot(e'.books[order.symbol], DEPTH))
  {
    hide BookSpec.Submit, Refresh, Count, EventOf, BookSpec.TakeSnapshot;
  }

  lemma {:induction false} SubmissionAnnounced(events: seq<Event>, e: Engine, order: OrderRec)
    requires Announced(events, e.books)
    ensures var (e', out) := EngineSpec.SubmitOrder(Python, e, order);
            Announced(events + EventsOf(order.symbol, out.trades, out.snapshot), e'.books)
  {
    hide EngineSpec.SubmitOrder, BookSpec.TakeSnapshot, Announced;
    SubmissionShows(e, order);
    var (e', out) := EngineSpec.SubmitOrder(Python, e, order);
    if out.rejection.Some? {
      assert events + EventsOf(order.symbol, [], None) == events;
    } else {
      AnnouncedAgain(events, order.symbol, out.trades, e'.books[order.symbol], e.books, e'.books);
    }
  }

  lemma {:induction false} CancellationShows(w: World, id: OrderId)
    requires Good(w)
    ensures var (e, r) := EngineSpec.CancelOrder(w.engine, id);
            if r.None? then e == w.engine
            else id in w.engine.orders && r.value.symbol == w.engine.orders[id].symbol && r.value.symbol in e.books
                 && e.books == w.engine.books[r.value.symbol := e.books[r.value.symbol]]
  {
    hide EngineRuns.Good, EngineSpec.CancelOrder, BookSpec.Cancel;
    CancelIs(w, id);
    CancelChanges(w, id);
  }

  lemma {:induction false} CancellationAnnounced(events: seq<Event>, w: World, id: OrderId)
    requires Good(w) && Announced(events, w.engine.books)
    ensures var (e, r) := EngineSpec.CancelOrder(w.engine, id);
            if r.None? then e == w.engine
            else r.value.symbol in e.books
                 && Announced(events + EventsOf(r.value.symbol, [], Some(TakeSnapshot(e.books[r.value.symbol], DEPTH))), e.books)
  {
    hide EngineRuns.Good, EngineSpec.CancelOrder, BookSpec.TakeSnapshot, Announced;
    CancellationShows(w, id);
    var (e, r) := EngineSpec.CancelOrder(w.engine, id);
    if r.Some? {
      AnnouncedAgain(events, r.value.symbol, [], e.books[r.value.symbol], w.engine.books, e.books);
    }
  }

  lemma {:induction false} RegistrationAnnounced(events: seq<Event>, e: Engine, symbol: Symbol)
    requires Announced(events, e.books)
    ensures Announced(events, EngineSpec.RegisterSymbol(Python, e, symbol).books)
  {
    hide BookSpec.TakeSnapshot, LastUpdate;
  }

  function TradesIn(queue: seq<Event>): seq<Trade> {
    if queue == [] then []
    else TradesIn(queue[..|queue| - 1]) + (if queue[|queue| - 1].TradeEvent? then [queue[|queue| - 1].trade] else [])
  }

  lemma {:induction false} TradesAppend(queue: seq<Event>, event: Event)
    ensures TradesIn(queue + [event]) == TradesIn(queue) + (if event.TradeEvent? then [event.trade] else [])
  {
    assert (queue + [event])[..|queue|] == queue;
  }

  lemma {:induction false} TradesFront(queue: seq<Event>)
    requires queue != []
    ensures TradesIn(queue) == (if queue[0].TradeEvent? then [queue[0].trade] else []) + TradesIn(queue[1..])
    decreases |queue|
  {
    if |queue| > 1 {
      TradesFront(queue[..|queue| - 1]);
      assert queue[..|queue| - 1][1..] == queue[1..][..|queue| - 2];
    }
  }

  // ---------- signed quantities ----------

  function SignedFor(t: Trade, id: OrderId, owned: map<OrderId, Owner>, sid: StrategyId): int {
    if id in owned && owned[id].strategy == sid then (if owned[id].side.Buy? then t.quantity else -t.quantity) else 0
  }

  /** What a trade does to a strategy's position; both sides may be its own. */
  function Signed(t: Trade, owned: map<OrderId, Owner>, sid: StrategyId): int {
    SignedFor(t, t.maker, owned, sid) + SignedFor(t, t.taker, owned, sid)
  }

  function SignedSum(log: seq<Trade>, owned: map<OrderId, Owner>, sid: StrategyId): int {
    if log == [] then 0 else SignedSum(log[..|log| - 1], owned, sid) + Signed(log[|log| - 1], owned, sid)
  }

  lemma {:induction false} SumConcat(a: seq<Trade>, b: seq<Trade>, owned: map<OrderId, Owner>, sid: StrategyId)
    ensures SignedSum(a + b, owned, sid) == SignedSum(a, owned, sid) + SignedSum(b, owned, sid)
    decreases |b|
  {
    if b == [] {
      assert a + b == a;
    } else {
      assert (a + b)[..|a + b| - 1] == a + b[..|b| - 1];
      SumConcat(a, b[..|b| - 1], owned, sid);
    }
  }

  /** Owning an order no trade names changes nothing. */
  lemma {:induction false} SumSame(log: seq<Trade>, owned: map<OrderId, Owner>, id: OrderId, owner: Owner, sid: StrategyId)
    requires forall i :: 0 <= i < |log| ==> log[i].maker != id && log[i].taker != id
    ensures SignedSum(log, owned[id := owner], sid) == SignedSum(log, owned, sid)
  {
    if log != [] {
      SumSame(log[..|log| - 1], owned, id, owner, sid);
    }
  }

  function OwnedFilled(owned: map<OrderId, Owner>, orders: map<OrderId, OrderRec>, sid: StrategyId, id: OrderId): int {
    if id in orders && id in owned && owned[id].strategy == sid then (if owned[id].side.Buy? then orders[id].filled else -orders[id].filled) else 0
  }

  function OwnedNamed(owned: map<OrderId, Owner>, orders: map<OrderId, OrderRec>, sid: StrategyId, log: seq<Trade>, id: OrderId): int {
    if id in orders && id in owned && owned[id].strategy == sid then (if owned[id].side.Buy? then Named(log, id) else -Named(log, id)) else 0
  }

  /** Summing over a strategy's orders what the trades say of each is summing what each trade says of the strategy. */
  lemma {:induction false} OwnedTrades(owned: map<OrderId, Owner>, orders: map<OrderId, OrderRec>, ids: seq<OrderId>, sid: StrategyId, log: seq<Trade>)
    requires (forall i, j :: 0 <= i < j < |ids| ==> ids[i] != ids[j]) && forall id :: id in orders ==> id in ids
    requires forall i :: 0 <= i < |log| ==> TradeOk(log[i], orders)
    ensures SumOf(ids, id => OwnedNamed(owned, orders, sid, log, id)) == SignedSum(log, owned, sid)
    decreases |log|
  {
    hide TradeOk, SignedFor, Named;
    var all := id => OwnedNamed(owned, orders, sid, log, id);
    if log == [] {
      NothingNamed(owned, orders, sid);
      SumZero(ids, all);
    } else {
      var front, t := log[..|log| - 1], log[|log| - 1];
      var rest := id => OwnedNamed(owned, orders, sid, front, id);
      var maker := id => if id == t.maker then SignedFor(t, id, owned, sid) else 0;
      var taker := id => if id == t.taker then SignedFor(t, id, owned, sid) else 0;
      var both := id => maker(id) + taker(id);
      OwnedTrades(owned, orders, ids, sid, front);
      Parties(t, orders);
      assert log == front + [t];
      forall id
        ensures all(id) == rest(id) + both(id)
      {
        OwnedStep(owned, orders, sid, front, t, id);
      }
      SumAdds(ids, rest, both, all);
      SumAdds(ids, maker, taker, both);
      SumSingle(ids, maker, t.maker);
      SumSingle(ids, taker, t.taker);
    }
  }

  lemma {:induction false} Parties(t: Trade, orders: map<OrderId, OrderRec>)
    requires TradeOk(t, orders)
    ensures t.maker in orders && t.taker in orders
  {
  }

  lemma {:induction false} NothingNamed(owned: map<OrderId, Owner>, orders: map<OrderId, OrderRec>, sid: StrategyId)
    ensures forall id :: OwnedNamed(owned, orders, sid, [], id) == 0
  {
  }

  /** One trade's share of an order's account. */
  lemma {:induction false} OwnedStep(owned: map<OrderId, Owner>, orders: map<OrderId, OrderRec>, sid: StrategyId, front: seq<Trade>, t: Trade, id: OrderId)
    requires TradeOk(t, orders)
    ensures OwnedNamed(owned, orders, sid, front + [t], id)
              == OwnedNamed(owned, orders, sid, front, id)
                 + ((if id == t.maker then SignedFor(t, id, owned, sid) else 0) + (if id == t.taker then SignedFor(t, id, owned, sid) else 0))
  {
    NamedConcat(front, [t], id);
    NamedSingle(t, id);
  }

  lemma {:induction false} NamedSingle(t: Trade, id: OrderId)
    ensures Named([t], id) == if t.maker == id || t.taker == id then t.quantity else 0
  {
    assert [t][1..] == [];
  }

  // ---------- what holds of owned orders ----------

  ghost predicate Working(orders: map<OrderId, OrderRec>, id: OrderId) {
    id in orders && ShouldRest(orders[id])
  }

  ghost predicate OwnersOk(owned: map<OrderId, Owner>, orders: map<OrderId, OrderRec>, strategies: map<StrategyId, Strategy>) {
    forall id :: id in owned ==> owned[id].strategy in strategies && (id in orders ==> orders[id].side == owned[id].side)
  }

  /** Every working order of a strategy is among those it would cancel. */
  ghost predicate Tracked(owned: map<OrderId, Owner>, orders: map<OrderId, OrderRec>, open: map<StrategyId, set<OrderId>>) {
    forall id :: id in owned && Working(orders, id) ==> owned[id].strategy in open && id in open[owned[id].strategy]
  }

  /** A strategy that is not running has no working order. */
  ghost predicate StoppedAreSilent(owned: map<OrderId, Owner>, orders: map<OrderId, OrderRec>, strategies: map<StrategyId, Strategy>) {
    forall id :: id in owned && Working(orders, id) ==> owned[id].strategy in strategies && strategies[owned[id].strategy].running
  }

  /** A market maker has at most one working order a side. */
  ghost predicate QuotesShaped(owned: map<OrderId, Owner>, orders: map<OrderId, OrderRec>, strategies: map<StrategyId, Strategy>) {
    forall a, b :: (a in owned && b in owned && Working(orders, a) && Working(orders, b) && owned[a] == owned[b]
                    && owned[a].strategy in strategies && strategies[owned[a].strategy].quotes) ==> a == b
  }

  /** Every strategy is named once and has a set of open orders; a market maker replaces its quotes. */
  ghost predicate RosterOk(names: seq<StrategyId>, strategies: map<StrategyId, Strategy>, open: map<StrategyId, set<OrderId>>) {
    && strategies.Keys == open.Keys && (forall i :: 0 <= i < |names| ==> names[i] in strategies)
    && (forall sid :: sid in strategies ==> sid in names) && (forall i, j :: 0 <= i < j < |names| ==> names[i] != names[j])
    && forall sid :: sid in strategies && strategies[sid].quotes ==> strategies[sid].replaceOpen
  }

  lemma {:induction false} RosterGrows(names: seq<StrategyId>, strategies: map<StrategyId, Strategy>, open: map<StrategyId, set<OrderId>>,
                                       sid: StrategyId, strategy: Strategy)
    requires RosterOk(names, strategies, open) && sid !in strategies && (strategy.quotes ==> strategy.replaceOpen)
    ensures RosterOk(names + [sid], strategies[sid := strategy], open[sid := {}])
  {
    var more := names + [sid];
    assert more[|names|] == sid;
    forall other | other in strategies
      ensures other in more
    {
      var i :| 0 <= i < |names| && names[i] == other;
      assert more[i] == other;
    }
  }

  lemma {:induction false} RosterStays(names: seq<StrategyId>, was: map<StrategyId, Strategy>, now: map<StrategyId, Strategy>,
                                       open: map<StrategyId, set<OrderId>>, open': map<StrategyId, set<OrderId>>)
    requires RosterOk(names, was, open) && SameStrategies(was, now) && open'.Keys == open.Keys
    ensures RosterOk(names, now, open')
  {
  }

  lemma {:induction false} RosterKeys(names: seq<StrategyId>, strategies: map<StrategyId, Strategy>, open: map<StrategyId, set<OrderId>>)
    requires RosterOk(names, strategies, open)
    ensures strategies.Keys == open.Keys
  {
  }

  ghost predicate NoneWorking(owned: map<OrderId, Owner>, orders: map<OrderId, OrderRec>, sid: StrategyId) {
    forall id :: id in owned && owned[id].strategy == sid ==> !Working(orders, id)
  }

  ghost predicate OwnedOk(owned: map<OrderId, Owner>, orders: map<OrderId, OrderRec>, strategies: map<StrategyId, Strategy>,
                          open: map<StrategyId, set<OrderId>>)
  {
    OwnersOk(owned, orders, strategies) && Tracked(owned, orders, open) && QuotesShaped(owned, orders, strategies)
  }

  /** The engine moving on disturbs none of this, as long as it admits no order that is owned but unknown to it. */
  lemma {:induction false} EvolvingKeeps(owned: map<OrderId, Owner>, orders: map<OrderId, OrderRec>, orders': map<OrderId, OrderRec>, extra: set<OrderId>,
                                         strategies: map<StrategyId, Strategy>, open: map<StrategyId, set<OrderId>>)
    requires Evolves(orders, orders', extra) && forall id :: id in extra ==> id !in owned || id in orders
    ensures forall id :: id in owned && Working(orders', id) ==> Working(orders, id)
    ensures OwnedOk(owned, orders, strategies, open) ==> OwnedOk(owned, orders', strategies, open)
    ensures StoppedAreSilent(owned, orders, strategies) ==> StoppedAreSilent(owned, orders', strategies)
    ensures forall sid :: NoneWorking(owned, orders, sid) ==> NoneWorking(owned, orders', sid)
  {
  }

  class StrategyRuntime {
    /** How many events the runtime's queue holds before further ones are dropped. */
    const capacity: nat
    var engine: Engine
    ghost var world: World
    var queue: seq<Event>
    /** The events taken off the queue so far. */
    ghost var consumed: seq<Event>
    var dropped: nat
    /** How many trades of the engine's log have been taken from the queue and processed. */
    ghost var taken: nat
    var names: seq<StrategyId>
    var strategies: map<StrategyId, Strategy>
    var owned: map<OrderId, Owner>
    var open: map<StrategyId, set<OrderId>>

    constructor (capacity: nat)
      ensures Valid() && this.capacity == capacity && Now() == Floor(EmptyEngine(), map[], [], 0)
      ensures names == [] && strategies == map[] && open == map[]
    {
      this.capacity := capacity;
      engine, world, queue, consumed, dropped, taken := EmptyEngine(), Start(), [], [], 0, 0;
      names, strategies, owned, open := [], map[], map[], map[];
      StartGood();
    }

    ghost function Now(): Floor
      reads this
    {
      Floor(engine, owned, queue, dropped)
    }

    ghost predicate EngineOk()
      reads this
    {
      Good(world) && world.engine == engine
    }

    /**
     Without drops, the queue holds exactly the trades not yet processed, in order, and
     the last book updates show the books as they are; an unbounded queue drops nothing.
     */
    ghost predicate QueueOk()
      reads this
    {
      && (capacity == 0 ==> dropped == 0)
      && (dropped == 0 ==> taken <= |world.log| && TradesIn(queue) == world.log[taken..])
      && (dropped == 0 ==> Announced(consumed + queue, engine.books))
    }

    /** Without drops, positions are what the processed trades say. */
    ghost predicate PositionsOk()
      reads this
    {
      dropped == 0 ==> taken <= |world.log|
                       && forall sid :: sid in strategies ==> strategies[sid].position == SignedSum(world.log[..taken], owned, sid)
    }

    ghost predicate Roster()
      reads this
    {
      RosterOk(names, strategies, open)
    }

    /** Everything but what a strategy being stopped has not done yet. */
    ghost predicate Core()
      reads this
    {
      EngineOk() && QueueOk() && PositionsOk() && Roster() && OwnedOk(owned, engine.orders, strategies, open)
    }

    ghost predicate Valid()
      reads this
    {
      Core() && StoppedAreSilent(owned, engine.orders, strategies)
    }

    /** Put an event on the queue, or count it as dropped. */
    method Publish(event: Event)
      modifies `queue, `dropped
      ensures if capacity == 0 || |old(queue)| < capacity then queue == old(queue) + [event] && dropped == old(dropped)
              else queue == old(queue) && dropped == old(dropped) + 1
    {
      if EventBus.HasRoom(capacity, |queue|) {
        queue := queue + [event];
      } else {
        dropped := dropped + 1;
      }
    }

    /** Every trade of a result goes out first, in order, then the book as it now is; what comes after the queue is full is dropped. */
    method PublishResult(symbol: Symbol, trades: seq<Trade>, snapshot: Option<Snapshot>)
      modifies `queue, `dropped
      ensures Now() == Offered(capacity, old(Now()), EventsOf(symbol, trades, snapshot))
      ensures dropped == old(dropped) ==> queue == old(queue) + EventsOf(symbol, trades, snapshot)
      ensures dropped == old(dropped) ==> TradesIn(queue) == TradesIn(old(queue)) + trades
    {
      hide TradesIn;
      ghost var events := EventsOf(symbol, trades, snapshot);
      for i := 0 to |trades|
        invariant var k := Taken(capacity, |old(queue)|, i); queue == old(queue) + events[..k] && dropped == old(dropped) + i - k
        invariant dropped >= old(dropped)
        invariant dropped == old(dropped) ==> TradesIn(queue) == TradesIn(old(queue)) + trades[..i]
      {
        TradesAppend(queue, TradeEvent(trades[i]));
        assert events[i] == TradeEvent(trades[i]);
        Publish(TradeEvent(trades[i]));
        assert trades[..i + 1] == trades[..i] + [trades[i]];
      }
      if snapshot.Some? {
        TradesAppend(queue, BookUpdateEvent(symbol, snapshot.value));
        assert events[|trades|] == BookUpdateEvent(symbol, snapshot.value);
        Publish(BookUpdateEvent(symbol, snapshot.value));
      }
    }

    /** Submit to the exchange, which reports back through the queue. */
    method GatewaySubmit(order: OrderRec)
      requires EngineOk() && QueueOk() && PositionsOk() && order.filled == 0 && order.status == Pending
      modifies `engine, `world, `queue, `dropped
      ensures EngineOk() && QueueOk() && PositionsOk() && Evolves(old(engine.orders), engine.orders, {order.id})
      ensures order.id !in old(engine.orders) && order.id in engine.orders ==> SameButProgress(engine.orders[order.id], order)
      ensures Now() == Sent(capacity, old(Now()), order)
      ensures dropped >= old(dropped) && old(queue) <= queue && old(world.log) <= world.log
    {
      hide EngineRuns.Good, EngineSpec.SubmitOrder, Next, Evolves, Announced, TradesIn, EventsOf;
      SubmissionEvolves(Python, world, order);
      if dropped == 0 {
        SubmissionAnnounced(consumed + queue, engine, order);
      }
      var (e, out) := EngineSpec.SubmitOrder(Python, engine, order);
      ghost var w := world;
      engine, world := e, Next(Python, world, Submission(order));
      PublishResult(order.symbol, out.trades, out.snapshot);
      Joined(consumed, old(queue), EventsOf(order.symbol, out.trades, out.snapshot));
      assert dropped == 0 ==> world.log[taken..] == w.log[taken..] + out.trades && world.log[..taken] == w.log[..taken];
    }

    /** Cancel at the exchange; afterwards the order is not working, whether or not it was. */
    method GatewayCancel(id: OrderId)
      requires EngineOk() && QueueOk() && PositionsOk()
      modifies `engine, `world, `queue, `dropped
      ensures EngineOk() && QueueOk() && PositionsOk() && Evolves(old(engine.orders), engine.orders, {}) && !Working(engine.orders, id)
      ensures Now() == Withdrawn(capacity, old(Now()), id) && OnlyThese(old(engine.orders), engine.orders, {id})
      ensures dropped >= old(dropped) && old(queue) <= queue && world.log == old(world.log)
    {
      hide EngineRuns.Good, EngineSpec.CancelOrder, Next, Evolves, Announced, BookSpec.TakeSnapshot, TradesIn, EventsOf;
      CancellationEvolves(world, id);
      if dropped == 0 {
        CancellationAnnounced(consumed + queue, world, id);
      }
      CancelsOne(world, id);
      CancelWhen(world, id);
      var (e, cancelled) := EngineSpec.CancelOrder(engine, id);
      engine, world := e, Next(Python, world, Cancellation(id));
      if cancelled.Some? && cancelled.value.symbol in engine.books {
        PublishResult(cancelled.value.symbol, [], Some(TakeSnapshot(engine.books[cancelled.value.symbol], DEPTH)));
        assert TradesIn(old(queue)) + [] == TradesIn(old(queue));
        Joined(consumed, old(queue), EventsOf(cancelled.value.symbol, [], Some(TakeSnapshot(engine.books[cancelled.value.symbol], DEPTH))));
      }
    }

    /** The exchange opens a book for an instrument. */
    method RegisterSymbol(symbol: Symbol)
      requires Valid()
      modifies `engine, `world
      ensures Valid() && engine == EngineSpec.RegisterSymbol(Python, old(engine), symbol) && symbol in engine.books
    {
      hide EngineRuns.Good, OwnedOk, StoppedAreSilent, SignedSum, RosterOk, Announced;
      NextGood(Python, world, Register(symbol));
      if dropped == 0 {
        RegistrationAnnounced(consumed + queue, engine, symbol);
      }
      engine, world := EngineSpec.RegisterSymbol(Python, engine, symbol), Next(Python, world, Register(symbol));
    }

    /** Register a strategy under a new name. */
    method AddStrategy(sid: StrategyId, symbol: Symbol, replaceOpen: bool, quotes: bool) returns (added: bool)
      requires Valid() && (quotes ==> replaceOpen)
      modifies `names, `strategies, `open
      ensures Valid() && added == (sid !in old(strategies))
      ensures strategies == if added then old(strategies)[sid := Strategy(symbol, false, replaceOpen, quotes, 0)] else old(strategies)
      ensures names == (if added then old(names) + [sid] else old(names)) && open == if added then old(open)[sid := {}] else old(open)
    {
      hide EngineRuns.Good, OwnedOk, StoppedAreSilent, SignedSum, RosterOk;
      added := sid !in strategies;
      if added {
        RosterGrows(names, strategies, open, sid, Strategy(symbol, false, replaceOpen, quotes, 0));
        Joins(owned, engine.orders, strategies, open, sid, Strategy(symbol, false, replaceOpen, quotes, 0));
        if dropped == 0 {
          Unowned(world.log[..taken], owned, sid);
        }
        names := names + [sid];
        strategies := strategies[sid := Strategy(symbol, false, replaceOpen, quotes, 0)];
        open := open[sid := {}];
      }
    }

    method StartStrategy(sid: StrategyId)
      requires Valid() && sid in strategies
      modifies `strategies
      ensures Valid() && strategies == old(strategies)[sid := old(strategies)[sid].(running := true)]
    {
      hide EngineRuns.Good, OwnedOk, StoppedAreSilent, SignedSum, RosterOk;
      Switches(owned, engine.orders, strategies, open, sid, true);
      RosterStays(names, strategies, strategies[sid := strategies[sid].(running := true)], open, open);
      strategies := strategies[sid := strategies[sid].(running := true)];
    }

    /** Cancel one open order of a strategy and stop counting it as open. */
    method CancelOne(sid: StrategyId, id: OrderId)
      requires Core() && sid in strategies
      modifies `engine, `world, `queue, `dropped, `open
      ensures Core() && open == old(open)[sid := old(open)[sid] - {id}] && OnlyThese(old(engine.orders), engine.orders, {id})
      ensures Now() == Withdrawn(capacity, old(Now()), id)
      ensures Evolves(old(engine.orders), engine.orders, {}) && dropped >= old(dropped) && old(queue) <= queue && world.log == old(world.log)
    {
      hide EngineRuns.Good, OwnedOk, SignedSum, Evolves, RosterOk, Withdrawn;
      RosterKeys(names, strategies, open);
      ghost var orders := engine.orders;
      GatewayCancel(id);
      EvolvingKeeps(owned, orders, engine.orders, {}, strategies, open);
      RosterStays(names, strategies, strategies, open, open[sid := open[sid] - {id}]);
      Closed(owned, engine.orders, strategies, open, sid, id);
      open := open[sid := open[sid] - {id}];
    }

    /** Cancel everything a strategy has open; afterwards none of its orders is working. */
    method CancelOpenOrders(sid: StrategyId)
      requires Core() && sid in strategies
      modifies `engine, `world, `queue, `dropped, `open
      ensures Core() && NoneWorking(owned, engine.orders, sid) && OnlyThese(old(engine.orders), engine.orders, old(open)[sid])
      ensures WithdrawnAll(capacity, old(open)[sid], old(Now()), Now()) && open == old(open)[sid := {}]
      ensures Evolves(old(engine.orders), engine.orders, {}) && dropped >= old(dropped) && old(queue) <= queue && world.log == old(world.log)
    {
      hide EngineRuns.Good, OwnedOk, SignedSum, Evolves, NoneWorking, StrategyRuntime.EngineOk, StrategyRuntime.QueueOk, StrategyRuntime.PositionsOk, RosterOk,
        WithdrawnAll, Withdrawn;
      RosterKeys(names, strategies, open);
      var ids := open[sid];
      NothingEvolves(engine.orders, {});
      NothingWithdrawn(capacity, old(open)[sid], Now());
      while ids != {}
        invariant WithdrawnAll(capacity, old(open)[sid] - ids, old(Now()), Now()) && open == old(open)[sid := ids]
        invariant Core() && sid in open && ids == open[sid] && ids <= old(open)[sid] && OnlyThese(old(engine.orders), engine.orders, old(open)[sid])
        invariant Evolves(old(engine.orders), engine.orders, {}) && dropped >= old(dropped) && old(queue) <= queue && world.log == old(world.log)
        decreases |ids|
      {
        var id := Any(ids);
        ghost var orders, before := engine.orders, Now();
        CancelOne(sid, id);
        OneMoreWithdrawn(capacity, old(open)[sid], ids, id, old(Now()), before);
        EvolvesOn(old(engine.orders), orders, engine.orders);
        ids := ids - {id};
      }
      NothingOpen(owned, engine.orders, strategies, open, sid);
      assert old(open)[sid] - {} == old(open)[sid];
    }

    /** Stop a strategy: it reacts to nothing more, and none of its orders is left working. */
    method StopStrategy(sid: StrategyId)
      requires Valid() && sid in strategies
      modifies `strategies, `engine, `world, `queue, `dropped, `open
      ensures Valid() && NoneWorking(owned, engine.orders, sid) && OnlyThese(old(engine.orders), engine.orders, old(open)[sid])
      ensures WithdrawnAll(capacity, old(open)[sid], old(Now()), Now()) && open == old(open)[sid := {}]
      ensures strategies == old(strategies)[sid := old(strategies)[sid].(running := false)]
      ensures Evolves(old(engine.orders), engine.orders, {}) && dropped >= old(dropped) && old(queue) <= queue && world.log == old(world.log)
    {
      hide EngineRuns.Good, OwnedOk, SignedSum, Evolves, NoneWorking, StoppedAreSilent, RosterOk, WithdrawnAll;
      Switches(owned, engine.orders, strategies, open, sid, false);
      RosterStays(names, strategies, strategies[sid := strategies[sid].(running := false)], open, open);
      ghost var orders := engine.orders;
      strategies := strategies[sid := strategies[sid].(running := false)];
      CancelOpenOrders(sid);
      Silenced(owned, orders, engine.orders, old(strategies), sid);
    }

    /** The operator's kill switch: stop one strategy, or all of them. */
    method EngageKillSwitch(target: Option<StrategyId>)
      requires Valid() && (target.Some? ==> target.value in strategies)
      modifies `strategies, `engine, `world, `queue, `dropped, `open
      ensures Valid() && dropped >= old(dropped) && old(queue) <= queue && SameStrategies(old(strategies), strategies)
      ensures forall sid :: sid in strategies && (target.None? || target.value == sid) ==>
                !strategies[sid].running && NoneWorking(owned, engine.orders, sid)
      ensures forall sid :: sid in strategies && target.Some? && target.value != sid ==> strategies[sid] == old(strategies)[sid]
    {
      hide StrategyRuntime.Core, StoppedAreSilent, NoneWorking, Evolves, RosterOk, WithdrawnAll;
      var targets := if target.Some? then [target.value] else names;
      AllNamed(this);
      for i := 0 to |targets|
        invariant Valid() && dropped >= old(dropped) && old(queue) <= queue && SameStrategies(old(strategies), strategies)
        invariant forall j :: 0 <= j < i ==> !strategies[targets[j]].running && NoneWorking(owned, engine.orders, targets[j])
        invariant forall sid :: sid in strategies && target.Some? && target.value != sid ==> strategies[sid] == old(strategies)[sid]
      {
        ghost var orders := engine.orders;
        StopStrategy(targets[i]);
        StillNoneWorking(owned, orders, engine.orders, targets[..i]);
        assert forall j :: 0 <= j < i ==> targets[..i][j] == targets[j];
      }
      forall sid | sid in strategies && (target.None? || target.value == sid)
        ensures !strategies[sid].running && NoneWorking(owned, engine.orders, sid)
      {
        assert sid in targets;
        var j :| 0 <= j < |targets| && targets[j] == sid;
      }
    }

    /** Orders other participants submit through the same exchange; order ids are never shared. */
    method ExternalSubmit(order: OrderRec)
      requires Valid() && order.filled == 0 && order.status == Pending && order.id !in owned
      modifies `engine, `world, `queue, `dropped
      ensures Now() == Sent(capacity, old(Now()), order)
      ensures Valid() && dropped >= old(dropped) && old(queue) <= queue
    {
      hide EngineRuns.Good, OwnedOk, SignedSum, Evolves, StoppedAreSilent, RosterOk, Sent, Withdrawn;
      ghost var orders := engine.orders;
      GatewaySubmit(order);
      EvolvingKeeps(owned, orders, engine.orders, {order.id}, strategies, open);
    }

    /** Cancellations that do not come from the runtime; they may hit its orders. */
    method ExternalCancel(id: OrderId)
      requires Valid()
      modifies `engine, `world, `queue, `dropped
      ensures Now() == Withdrawn(capacity, old(Now()), id)
      ensures Valid() && dropped >= old(dropped) && old(queue) <= queue
    {
      hide EngineRuns.Good, OwnedOk, SignedSum, Evolves, StoppedAreSilent, RosterOk, Sent, Withdrawn;
      ghost var orders := engine.orders;
      GatewayCancel(id);
      EvolvingKeeps(owned, orders, engine.orders, {}, strategies, open);
    }

    /** Submit one proposal, if it is the strategy's own, for its instrument, and within limits. A new order's id is new. */
    method SubmitOne(sid: StrategyId, proposal: Proposal) returns (submitted: bool)
      requires Valid() && sid in strategies
      requires strategies[sid].quotes ==> SideFree(owned, engine.orders, sid, proposal.order.side)
      modifies `engine, `world, `queue, `dropped, `owned, `open
      ensures Valid() && dropped >= old(dropped) && old(queue) <= queue
      ensures submitted <==> strategies[sid].running && proposal.strategy == sid && proposal.order.symbol == strategies[sid].symbol && proposal.passes
      ensures submitted <==> Acceptable(sid, strategies[sid], proposal)
      ensures Evolves(old(engine.orders), engine.orders, owned.Keys - old(owned.Keys)) && Backed(old(owned), owned, engine.orders, sid, strategies[sid], [proposal])
      ensures forall id :: id in old(owned) && !Working(old(engine.orders), id) ==> !Working(engine.orders, id)
      ensures SameOthers(old(open), open, sid)
      ensures submitted ==> exists id :: PlacedOne(capacity, sid, proposal.order, id, old(Now()), Now()) && open[sid] == old(open)[sid] + {id}
      ensures !submitted ==> Now() == old(Now()) && open == old(open)
      ensures forall side :: side != proposal.order.side && SideFree(old(owned), old(engine.orders), sid, side) ==> SideFree(owned, engine.orders, sid, side)
    {
      hide EngineRuns.Good, OwnedOk, SignedSum, Evolves, StoppedAreSilent, SideFree, RosterOk, Working, Sent;
      RosterKeys(names, strategies, open);
      submitted := false;
      if proposal.strategy == sid && proposal.order.symbol == strategies[sid].symbol && strategies[sid].running && proposal.passes {
        SomeNewId(owned.Keys + engine.orders.Keys);
        var id: OrderId :| id !in owned.Keys + engine.orders.Keys;
        var order := proposal.order.(id := id, filled := 0, status := Pending);
        ghost var orders, owned0, open0 := engine.orders, owned, open;
        assert id !in owned && id !in orders;
        NewlyOwned(this, id, Owner(sid, order.side));
        owned := owned[id := Owner(sid, order.side)];
        open := open[sid := open[sid] + {id}];
        GatewaySubmit(order);
        RosterStays(names, strategies, strategies, open0, open);
        Submitted(owned0, orders, engine.orders, strategies, open0, sid, order.side, id);
        submitted := true;
        assert PlacedOne(capacity, sid, proposal.order, id, old(Now()), Now());
        assert owned.Keys - owned0.Keys == {id};
        OneBacked(owned0, owned, engine.orders, sid, strategies[sid], proposal, id);
      } else {
        NothingEvolves(engine.orders, owned.Keys - owned.Keys);
      }
    }

    /** Submit a strategy's proposals one after another. */
    method SubmitProposals(sid: StrategyId, proposals: seq<Proposal>)
      requires Valid() && sid in strategies
      requires strategies[sid].quotes ==> AtMostOneASide(proposals) && (proposals != [] ==> NoneWorking(owned, engine.orders, sid))
      modifies `engine, `world, `queue, `dropped, `owned, `open
      ensures Valid() && dropped >= old(dropped) && old(queue) <= queue
      ensures Placed(capacity, sid, AcceptableOrders(sid, strategies[sid], proposals), old(Now()), Now()) && SameOthers(old(open), open, sid)
      ensures Evolves(old(engine.orders), engine.orders, owned.Keys - old(owned.Keys)) && Backed(old(owned), owned, engine.orders, sid, strategies[sid], proposals)
      ensures (forall i :: 0 <= i < |proposals| ==> !proposals[i].passes) ==> Now() == old(Now())
      ensures Enlarged(old(owned), owned, sid, Accepted(sid, strategies[sid], proposals))
      ensures forall id :: id in old(owned) && !Working(old(engine.orders), id) ==> !Working(engine.orders, id)
    {
      hide StrategyRuntime.Core, StoppedAreSilent, Acceptable, Enlarged, Working, Placed, PlacedOne, SameOthers, AcceptableOrders, Backed, Evolves;
      NotEnlarged(owned, sid);
      NothingBacked(owned, engine.orders, sid, strategies[sid], proposals);
      NothingPlaced(capacity, sid, strategies[sid], Now());
      NoOthers(open, sid);
      assert proposals[..0] == [];
      for i := 0 to |proposals|
        invariant Valid() && dropped >= old(dropped) && old(queue) <= queue
        invariant strategies[sid].quotes ==> forall j :: i <= j < |proposals| ==> SideFree(owned, engine.orders, sid, proposals[j].order.side)
        invariant Placed(capacity, sid, AcceptableOrders(sid, strategies[sid], proposals[..i]), old(Now()), Now()) && SameOthers(old(open), open, sid)
        invariant Enlarged(old(owned), owned, sid, Accepted(sid, strategies[sid], proposals[..i]))
        invariant Evolves(old(engine.orders), engine.orders, owned.Keys - old(owned.Keys))
        invariant Backed(old(owned), owned, engine.orders, sid, strategies[sid], proposals)
        invariant forall id :: id in old(owned) ==> id in owned
        invariant forall id :: id in old(owned) && !Working(old(engine.orders), id) ==> !Working(engine.orders, id)
      {
        ghost var before, between, open0, orders := owned, Now(), open, engine.orders;
        var submitted := SubmitOne(sid, proposals[i]);
        MoreBacked(old(owned), before, owned, old(engine.orders), orders, engine.orders, sid, strategies[sid], proposals, i);
        assert proposals[..i + 1][..i] == proposals[..i];
        OthersAgain(old(open), open0, open, sid);
        if submitted {
          ghost var id :| PlacedOne(capacity, sid, proposals[i].order, id, between, Now());
          OneMorePlaced(capacity, sid, strategies[sid], proposals, i, id, old(Now()), between, Now());
          OwnedNow(this, sid, proposals[i].order, id, before, between);
          EnlargedByOne(old(owned), before, owned, sid, Accepted(sid, strategies[sid], proposals[..i]), proposals[i].order.side);
        } else {
          NoMorePlaced(sid, strategies[sid], proposals, i);
        }
      }
      assert proposals[..|proposals|] == proposals;
      if forall i :: 0 <= i < |proposals| ==> !proposals[i].passes {
        NoneAcceptable(sid, strategies[sid], proposals);
        PlacedNothing(capacity, sid, old(Now()), Now());
      }
    }

    /** Carry out a strategy's answer to an event; an answer that raises stops the strategy. */
    method Answer(sid: StrategyId, response: Response, update: bool)
      requires Valid() && sid in strategies
      requires strategies[sid].quotes ==> Quoting(response, update)
      modifies `engine, `world, `queue, `dropped, `strategies, `owned, `open
      ensures sid in old(open) && AnsweredWith(capacity, sid, old(strategies)[sid], old(open)[sid], response, update, old(Now()), Now())
      ensures SameOthers(old(open), open, sid)
      ensures Valid() && dropped >= old(dropped) && old(queue) <= queue && SameStrategies(old(strategies), strategies)
      ensures strategies == old(strategies)[sid := old(strategies)[sid].(running := old(strategies)[sid].running && response.Proposes?)]
      ensures Enlarged(old(owned), owned, sid, AcceptedOf(sid, old(strategies)[sid], response))
      ensures update && response.Proposes? && response.proposals != [] && old(strategies)[sid].replaceOpen ==> NoneWorking(old(owned), engine.orders, sid)
      ensures response.Proposes? && !(update && response.proposals != [] && old(strategies)[sid].replaceOpen) ==>
                Placed(capacity, sid, AcceptableOrders(sid, old(strategies)[sid], response.proposals), old(Now()), Now())
      ensures response.Raises? ==> NoneWorking(owned, engine.orders, sid) && owned == old(owned)
      ensures Evolves(old(engine.orders), engine.orders, owned.Keys - old(owned.Keys))
      ensures Backed(old(owned), owned, engine.orders, sid, old(strategies)[sid], if response.Raises? then [] else response.proposals)
    {
      hide StrategyRuntime.Core, StoppedAreSilent, Enlarged, Placed, WithdrawnAll, AcceptableOrders, StrategyRuntime.Now, Backed, Evolves, NoneWorking, SameOthers;
      RosterOpens(this, sid);
      match response
      case Raises =>
        NotEnlarged(owned, sid);
        StopStrategy(sid);
        NothingBacked(owned, engine.orders, sid, old(strategies)[sid], []);
        assert owned.Keys - owned.Keys == {};
        OnlyThisOne(old(open), sid);
      case Proposes(proposals) =>
        assert strategies[sid].(running := strategies[sid].running) == strategies[sid];
        Heed(sid, proposals, update);
    }

    /** Carry out a strategy's proposals; a new set of quotes takes the place of the open orders. */
    method Heed(sid: StrategyId, proposals: seq<Proposal>, update: bool)
      requires Valid() && sid in strategies && sid in open && (strategies[sid].quotes ==> Quoting(Proposes(proposals), update))
      modifies `engine, `world, `queue, `dropped, `owned, `open
      ensures Valid() && dropped >= old(dropped) && old(queue) <= queue && SameOthers(old(open), open, sid)
      ensures AnsweredWith(capacity, sid, strategies[sid], old(open)[sid], Proposes(proposals), update, old(Now()), Now())
      ensures Enlarged(old(owned), owned, sid, Accepted(sid, strategies[sid], proposals))
      ensures update && proposals != [] && strategies[sid].replaceOpen ==> NoneWorking(old(owned), engine.orders, sid)
      ensures !(update && proposals != [] && strategies[sid].replaceOpen) ==>
                Placed(capacity, sid, AcceptableOrders(sid, strategies[sid], proposals), old(Now()), Now())
      ensures Evolves(old(engine.orders), engine.orders, owned.Keys - old(owned.Keys)) && Backed(old(owned), owned, engine.orders, sid, strategies[sid], proposals)
    {
      hide StrategyRuntime.Valid, StrategyRuntime.Now, Enlarged, Placed, WithdrawnAll, AcceptableOrders, Backed, Evolves, Working;
      ghost var was := engine.orders;
      NothingEvolves(was, {});
      NothingWithdrawn(capacity, {}, Now());
      NoOthers(open, sid);
      if update && proposals != [] && strategies[sid].replaceOpen {
        MakeWay(sid);
      }
      QuotersReplace(this, sid);
      ghost var between, orders := Now(), engine.orders;
      assert WithdrawnAll(capacity, if Replaces(Proposes(proposals), update, strategies[sid]) then old(open)[sid] else {}, old(Now()), between);
      SubmitProposals(sid, proposals);
      EvolvesFurther(was, orders, engine.orders, owned.Keys - old(owned.Keys));
    }

    /** Cancel everything a strategy has open, to make way for its new quotes. */
    method MakeWay(sid: StrategyId)
      requires Valid() && sid in strategies && sid in open
      modifies `engine, `world, `queue, `dropped, `open
      ensures Valid() && NoneWorking(owned, engine.orders, sid) && dropped >= old(dropped) && old(queue) <= queue
      ensures WithdrawnAll(capacity, old(open)[sid], old(Now()), Now()) && SameOthers(old(open), open, sid)
      ensures Evolves(old(engine.orders), engine.orders, {})
    {
      hide StrategyRuntime.Core, StoppedAreSilent, WithdrawnAll, Evolves, StrategyRuntime.Now;
      StillCore(this);
      ghost var orders := engine.orders;
      CancelOpenOrders(sid);
      StillValid(this, orders);
    }

    /** Every running strategy of the event's instrument answers in turn; `responses` are the answers given. */
    method AnswerAll(event: Event, callbacks: Callbacks) returns (ghost responses: map<StrategyId, Response>)
      requires Valid() && Quotes(callbacks, event)
      modifies `engine, `world, `queue, `dropped, `strategies, `owned, `open
      ensures Valid() && dropped >= old(dropped) && old(queue) <= queue && SameStrategies(old(strategies), strategies)
      ensures AllAnswered(capacity, names, old(strategies), old(open), event, callbacks, responses, old(Now()), Now())
      ensures Answered(old(strategies), strategies, names, About(event), responses)
      ensures old(owned.Keys) <= owned.Keys && |owned| == |old(owned)| + AcceptedAll(old(strategies), names, About(event), responses)
      ensures forall sid :: sid in responses <==> sid in names && Asked(old(strategies), sid, About(event))
      ensures Vouched(old(owned), owned, engine.orders, old(strategies), responses)
    {
      hide StrategyRuntime.Core, StoppedAreSilent, Quoting, AcceptedOf, Working, NoneWorking, AnsweredWith, SameOthers, Quotes, SoFar, Enlarged,
        Evolves, Backed, Vouched, Placed;
      responses := map[];
      NobodyAnswered(capacity, names, strategies, open, event, callbacks, Now());
      for i := 0 to |names|
        invariant Valid() && dropped >= old(dropped) && old(queue) <= queue
        invariant SameStrategies(old(strategies), strategies) && old(owned.Keys) <= owned.Keys
        invariant SoFar(capacity, names, i, old(strategies), old(open), event, callbacks, responses, old(Now()), strategies, open, Now())
      {
        var sid := names[i];
        KnownName(this, i);
        NextInLine(capacity, names, i, old(strategies), old(open), event, callbacks, responses, old(Now()), strategies, open, Now());
        ghost var before, between, open0 := strategies, Now(), open;
        if strategies[sid].running && strategies[sid].symbol == About(event) {
          var response := callbacks(sid, strategies[sid], event, engine);
          Quoted(callbacks, event, sid, strategies[sid], engine);
          Answer(sid, response, event.BookUpdateEvent?);
          EnlargedSize(between.owned, owned, sid, AcceptedOf(sid, before[sid], response));
          OneMoreAnswer(capacity, names, i, old(strategies), old(open), event, callbacks, responses, response, old(Now()), before, open0, between,
                        strategies, open, Now());
          responses := responses[sid := response];
        } else {
          OneNotAsked(capacity, names, i, old(strategies), old(open), event, callbacks, responses, old(Now()), strategies, open, between);
        }
      }
      AllHeard(capacity, names, old(strategies), old(open), event, callbacks, responses, old(Now()), strategies, open, Now());
    }

    /** Book one side of a trade with the strategy that owns the order; an order no longer active is no longer open. */
    method BookFill(trade: Trade, id: OrderId)
      requires Books(names, owned, engine.orders, strategies, open)
      modifies `strategies, `open
      ensures Books(names, owned, engine.orders, strategies, open) && SameStrategies(old(strategies), strategies)
      ensures forall sid :: sid in strategies ==>
                strategies[sid] == old(strategies)[sid].(position := old(strategies)[sid].position + SignedFor(trade, id, owned, sid))
      ensures open == Closing(old(open), owned, engine.orders, id)
      ensures id !in owned ==> open == old(open)
      ensures id in owned ==>
                var sid := owned[id].strategy;
                var active := id in engine.orders && (engine.orders[id].status.Open? || engine.orders[id].status.PartiallyFilled?);
                sid in old(open) && open == old(open)[sid := if active then old(open)[sid] else old(open)[sid] - {id}]
    {
      hide Books;
      if id in owned {
        OwnerKnown(names, owned, engine.orders, strategies, open, id);
        var sid, side := owned[id].strategy, owned[id].side;
        var signed := if side.Buy? then trade.quantity else -trade.quantity;
        var active := id in engine.orders && engine.orders[id].IsActive();
        Booked(names, owned, engine.orders, strategies, open, sid, strategies[sid].position + signed, id, active);
        strategies := strategies[sid := strategies[sid].(position := strategies[sid].position + signed)];
        if !active {
          open := open[sid := open[sid] - {id}];
        }
      }
    }

    /** Take one event off the queue and react to it: book it if it is a trade, then ask every strategy it concerns. */
    method ProcessEvent(callbacks: Callbacks) returns (ghost responses: map<StrategyId, Response>)
      requires Valid() && queue != [] && Quotes(callbacks, queue[0])
      modifies `engine, `world, `queue, `consumed, `dropped, `taken, `strategies, `owned, `open
      ensures Valid() && dropped >= old(dropped) && old(queue)[1..] <= queue && consumed == old(consumed) + [old(queue)[0]]
      ensures var event := old(queue)[0];
              AllAnswered(capacity, names, BookedBy(old(strategies), old(owned), event), ClosedBy(old(open), old(owned), old(engine.orders), event),
                          event, callbacks, responses, old(Now()).(queue := old(queue)[1..]), Now())
      ensures Reacted(old(queue)[0], old(owned), old(strategies), strategies, names, responses)
      ensures |owned| == |old(owned)| + AcceptedAll(old(strategies), names, About(old(queue)[0]), responses)
      ensures forall sid :: sid in responses <==>
                sid in old(strategies) && old(strategies)[sid].running
                && old(strategies)[sid].symbol == match old(queue)[0] case TradeEvent(trade) => trade.symbol case BookUpdateEvent(symbol, _) => symbol
      ensures Vouched(old(owned), owned, engine.orders, old(strategies), responses)
    {
      hide StrategyRuntime.Core, StoppedAreSilent, Quotes, AcceptedAll, Reacted, Answered, AllAnswered, BookedBy, ClosedBy, SameStrategies, Vouched, About, Asked;
      AllNamed(this);
      var event := TakeEvent();
      ghost var between := strategies;
      responses := AnswerAll(event, callbacks);
      BookedThenAnswered(event, old(owned), old(strategies), between, strategies, names, responses);
      VouchedBooked(old(strategies), old(owned), event, old(owned), owned, engine.orders, responses);
      forall sid
        ensures sid in responses <==>
                  sid in old(strategies) && old(strategies)[sid].running
                  && old(strategies)[sid].symbol == match event case TradeEvent(trade) => trade.symbol case BookUpdateEvent(symbol, _) => symbol
      {
        AskedBooked(old(strategies), old(owned), event, sid);
      }
    }

    /** Take one event off the queue; a trade is booked with whoever owns its orders. */
    method TakeEvent() returns (event: Event)
      requires Valid() && queue != []
      modifies `queue, `consumed, `taken, `strategies, `open
      ensures Valid() && event == old(queue)[0] && queue == old(queue)[1..] && consumed == old(consumed) + [event]
      ensures strategies == BookedBy(old(strategies), owned, event) && open == ClosedBy(old(open), owned, engine.orders, event)
    {
      hide EngineRuns.Good, OwnedOk, StoppedAreSilent, SignedSum, RosterOk, Closing, BookedBy, Signed, TradesIn, Announced;
      event := queue[0];
      if dropped == 0 {
        TakeFirst(queue, world.log[taken..]);
      }
      assert consumed + queue == consumed + [queue[0]] + queue[1..];
      queue, consumed := queue[1..], consumed + [event];
      NothingBooked(strategies, owned, event);
      if event.TradeEvent? {
        TakeTrade(event.trade);
      }
    }

    /** Book both sides of the trade that was next in the queue. */
    method TakeTrade(trade: Trade)
      requires EngineOk() && PositionsOk() && Books(names, owned, engine.orders, strategies, open)
      requires (capacity == 0 ==> dropped == 0) && (dropped == 0 ==> Announced(consumed + queue, engine.books))
      requires dropped == 0 ==> taken < |world.log| && world.log[taken] == trade && TradesIn(queue) == world.log[taken + 1..]
      modifies `taken, `strategies, `open
      ensures Valid() && strategies == BookedBy(old(strategies), owned, TradeEvent(trade))
      ensures open == ClosedBy(old(open), owned, engine.orders, TradeEvent(trade))
    {
      hide EngineRuns.Good, OwnedOk, StoppedAreSilent, SignedSum, SignedFor, RosterOk, Closing, BookedBy, Announced;
      if dropped == 0 {
        OneMore(world.log, taken, owned);
      }
      taken := taken + 1;
      BookFill(trade, trade.maker);
      ghost var between := strategies;
      BookFill(trade, trade.taker);
      BookedBoth(old(strategies), between, strategies, owned, trade);
    }
  }

  /** A trade is booked one side at a time. */
  lemma {:induction false} BookedBoth(was: map<StrategyId, Strategy>, between: map<StrategyId, Strategy>, now: map<StrategyId, Strategy>,
                                      owned: map<OrderId, Owner>, t: Trade)
    requires was.Keys == between.Keys == now.Keys
    requires forall sid :: sid in was ==> between[sid] == was[sid].(position := was[sid].position + SignedFor(t, t.maker, owned, sid))
    requires forall sid :: sid in between ==> now[sid] == between[sid].(position := between[sid].position + SignedFor(t, t.taker, owned, sid))
    ensures now == BookedBy(was, owned, TradeEvent(t))
    ensures forall sid :: sid in was ==> now[sid].position == was[sid].position + Signed(t, owned, sid)
  {
    hide SignedFor;
  }

  /** The trade next in the queue is the next of the log. */
  lemma {:induction false} TakeFirst(queue: seq<Event>, ahead: seq<Trade>)
    requires queue != [] && TradesIn(queue) == ahead
    ensures if queue[0].TradeEvent? then ahead != [] && queue[0].trade == ahead[0] && TradesIn(queue[1..]) == ahead[1..]
            else TradesIn(queue[1..]) == ahead
  {
    TradesFront(queue);
    hide TradesIn;
    if queue[0].TradeEvent? {
      assert ahead == [queue[0].trade] + TradesIn(queue[1..]);
    }
  }

  lemma {:induction false} NothingBooked(strategies: map<StrategyId, Strategy>, owned: map<OrderId, Owner>, event: Event)
    ensures event.BookUpdateEvent? ==> BookedBy(strategies, owned, event) == strategies
  {
    hide Signed;
  }

  lemma {:induction false} AllNamed(r: StrategyRuntime)
    requires r.Valid()
    ensures forall i :: 0 <= i < |r.names| ==> r.names[i] in r.strategies
    ensures forall sid :: sid in r.strategies ==> sid in r.names
  {
  }

  lemma {:induction false} StillNoneWorking(owned: map<OrderId, Owner>, orders: map<OrderId, OrderRec>, orders': map<OrderId, OrderRec>, sids: seq<StrategyId>)
    requires Evolves(orders, orders', {}) && forall j :: 0 <= j < |sids| ==> NoneWorking(owned, orders, sids[j])
    ensures forall j :: 0 <= j < |sids| ==> NoneWorking(owned, orders', sids[j])
  {
    EvolvingKeeps(owned, orders, orders', {}, map[], map[]);
  }

  function About(event: Event): Symbol { if event.TradeEvent? then event.trade.symbol else event.symbol }

  /** What a strategy may submit: its own orders, for its instrument, while it runs, within limits. */
  predicate Acceptable(sid: StrategyId, strategy: Strategy, proposal: Proposal) {
    strategy.running && proposal.strategy == sid && proposal.order.symbol == strategy.symbol && proposal.passes
  }

  /** The orders of the proposals that are submitted. */
  function AcceptableOrders(sid: StrategyId, strategy: Strategy, proposals: seq<Proposal>): seq<OrderRec> {
    if proposals == [] then []
    else
      var front, last := AcceptableOrders(sid, strategy, proposals[..|proposals| - 1]), proposals[|proposals| - 1];
      if Acceptable(sid, strategy, last) then front + [last.order] else front
  }

  lemma {:induction false} NothingPlaced(capacity: nat, sid: StrategyId, strategy: Strategy, f: Floor)
    ensures Placed(capacity, sid, AcceptableOrders(sid, strategy, []), f, f)
  {
  }

  lemma {:induction false} OneMorePlaced(capacity: nat, sid: StrategyId, strategy: Strategy, proposals: seq<Proposal>, i: nat, id: OrderId,
                                         f: Floor, m: Floor, g: Floor)
    requires i < |proposals| && Acceptable(sid, strategy, proposals[i])
    requires Placed(capacity, sid, AcceptableOrders(sid, strategy, proposals[..i]), f, m) && PlacedOne(capacity, sid, proposals[i].order, id, m, g)
    ensures Placed(capacity, sid, AcceptableOrders(sid, strategy, proposals[..i + 1]), f, g)
  {
    hide Acceptable, PlacedOne;
    assert proposals[..i + 1][..i] == proposals[..i];
    var orders := AcceptableOrders(sid, strategy, proposals[..i + 1]);
    assert orders == AcceptableOrders(sid, strategy, proposals[..i]) + [proposals[i].order];
    var front, last := orders[..|orders| - 1], orders[|orders| - 1];
    assert front == AcceptableOrders(sid, strategy, proposals[..i]) && last == proposals[i].order;
    assert Placed(capacity, sid, front, f, m) && PlacedOne(capacity, sid, last, id, m, g);
  }

  lemma {:induction false} NoMorePlaced(sid: StrategyId, strategy: Strategy, proposals: seq<Proposal>, i: nat)
    requires i < |proposals| && !Acceptable(sid, strategy, proposals[i])
    ensures AcceptableOrders(sid, strategy, proposals[..i + 1]) == AcceptableOrders(sid, strategy, proposals[..i])
  {
    assert proposals[..i + 1][..i] == proposals[..i];
  }

  lemma {:induction false} OwnedNow(r: StrategyRuntime, sid: StrategyId, order: OrderRec, id: OrderId, owned: map<OrderId, Owner>, f: Floor)
    requires PlacedOne(r.capacity, sid, order, id, f, r.Now()) && f.owned == owned
    ensures id !in owned && r.owned == owned[id := Owner(sid, order.side)]
  {
    hide Sent;
  }

  lemma {:induction false} NothingWithdrawn(capacity: nat, ids: set<OrderId>, f: Floor)
    ensures WithdrawnAll(capacity, ids - ids, f, f) && WithdrawnAll(capacity, {}, f, f)
  {
    assert ids - ids == {};
  }

  lemma {:induction false} OneMoreWithdrawn(capacity: nat, all: set<OrderId>, ids: set<OrderId>, id: OrderId, f: Floor, m: Floor)
    requires id in ids && ids <= all && WithdrawnAll(capacity, all - ids, f, m)
    ensures WithdrawnAll(capacity, all - (ids - {id}), f, Withdrawn(capacity, m, id))
  {
    hide Withdrawn;
    assert all - (ids - {id}) - {id} == all - ids;
    assert id in all - (ids - {id});
  }

  /** Only this strategy's open orders have changed. */
  ghost predicate SameOthers(was: map<StrategyId, set<OrderId>>, now: map<StrategyId, set<OrderId>>, sid: StrategyId) {
    was.Keys == now.Keys && forall other :: other in was && other != sid ==> now[other] == was[other]
  }

  lemma {:induction false} OnlyThisOne(open: map<StrategyId, set<OrderId>>, sid: StrategyId)
    requires sid in open
    ensures SameOthers(open, open[sid := {}], sid)
  {
  }

  lemma {:induction false} NoOthers(open: map<StrategyId, set<OrderId>>, sid: StrategyId)
    ensures SameOthers(open, open, sid)
  {
  }

  lemma {:induction false} OthersAgain(a: map<StrategyId, set<OrderId>>, b: map<StrategyId, set<OrderId>>, c: map<StrategyId, set<OrderId>>, sid: StrategyId)
    requires SameOthers(a, b, sid) && SameOthers(b, c, sid)
    ensures SameOthers(a, c, sid)
  {
  }

  /** The order of some proposal that was the strategy's own, for its instrument, and within limits. */
  ghost predicate Proposed(proposals: seq<Proposal>, sid: StrategyId, symbol: Symbol, side: Side, r: Option<OrderRec>) {
    exists i :: && 0 <= i < |proposals| && proposals[i].passes && proposals[i].strategy == sid && proposals[i].order.symbol == symbol
                && proposals[i].order.side == side && (r.Some? ==> SameButProgress(r.value, proposals[i].order.(id := r.value.id)))
  }

  function RecordOf(orders: map<OrderId, OrderRec>, id: OrderId): Option<OrderRec> {
    if id in orders then Some(orders[id]) else None
  }

  /** Every order newly owned is that of such a proposal, and what the engine knows of it says so. */
  ghost predicate Backed(was: map<OrderId, Owner>, now: map<OrderId, Owner>, orders: map<OrderId, OrderRec>, sid: StrategyId, strategy: Strategy,
                         proposals: seq<Proposal>)
  {
    && (forall id :: id in was ==> id in now && now[id] == was[id])
    && forall id :: id in now && id !in was ==>
         now[id].strategy == sid && strategy.running && Proposed(proposals, sid, strategy.symbol, now[id].side, RecordOf(orders, id))
         && (id in orders ==> orders[id].id == id)
  }

  lemma {:induction false} NothingBacked(owned: map<OrderId, Owner>, orders: map<OrderId, OrderRec>, sid: StrategyId, strategy: Strategy, proposals: seq<Proposal>)
    ensures Backed(owned, owned, orders, sid, strategy, proposals) && Evolves(orders, orders, owned.Keys - owned.Keys)
  {
    hide Proposed;
  }

  lemma {:induction false} OneBacked(was: map<OrderId, Owner>, now: map<OrderId, Owner>, orders: map<OrderId, OrderRec>, sid: StrategyId, strategy: Strategy,
                                     proposal: Proposal, id: OrderId)
    requires strategy.running && proposal.passes && proposal.strategy == sid && proposal.order.symbol == strategy.symbol
    requires id !in was && now == was[id := Owner(sid, proposal.order.side)]
    requires id in orders ==> SameButProgress(orders[id], proposal.order.(id := id, filled := 0, status := Pending))
    ensures Backed(was, now, orders, sid, strategy, [proposal])
  {
    assert [proposal][0] == proposal;
    assert Proposed([proposal], sid, strategy.symbol, proposal.order.side, RecordOf(orders, id));
  }

  lemma {:induction false} StillProposed(proposals: seq<Proposal>, sid: StrategyId, symbol: Symbol, side: Side, a: OrderRec, b: OrderRec)
    requires Proposed(proposals, sid, symbol, side, Some(a)) && SameButProgress(b, a)
    ensures Proposed(proposals, sid, symbol, side, Some(b))
  {
  }

  lemma {:induction false} ProposedAmong(proposals: seq<Proposal>, i: nat, sid: StrategyId, symbol: Symbol, side: Side, r: Option<OrderRec>)
    requires i < |proposals| && Proposed([proposals[i]], sid, symbol, side, r)
    ensures Proposed(proposals, sid, symbol, side, r)
  {
  }

  /** The engine moving on keeps orders backed. */
  lemma {:induction false} BackedOn(was: map<OrderId, Owner>, now: map<OrderId, Owner>, orders: map<OrderId, OrderRec>, orders': map<OrderId, OrderRec>,
                                    extra: set<OrderId>, sid: StrategyId, strategy: Strategy, proposals: seq<Proposal>)
    requires Backed(was, now, orders, sid, strategy, proposals) && Evolves(orders, orders', extra) && forall id :: id in extra ==> id !in now
    ensures Backed(was, now, orders', sid, strategy, proposals)
  {
    hide Proposed;
    forall id | id in now && id !in was
      ensures Proposed(proposals, sid, strategy.symbol, now[id].side, RecordOf(orders', id))
    {
      if id in orders {
        StillProposed(proposals, sid, strategy.symbol, now[id].side, orders[id], orders'[id]);
      }
    }
  }

  lemma {:induction false} MoreBacked(was: map<OrderId, Owner>, between: map<OrderId, Owner>, now: map<OrderId, Owner>, orders0: map<OrderId, OrderRec>,
                                      orders: map<OrderId, OrderRec>, orders': map<OrderId, OrderRec>, sid: StrategyId, strategy: Strategy,
                                      proposals: seq<Proposal>, i: nat)
    requires i < |proposals| && Backed(was, between, orders, sid, strategy, proposals) && Backed(between, now, orders', sid, strategy, [proposals[i]])
    requires Evolves(orders0, orders, between.Keys - was.Keys) && Evolves(orders, orders', now.Keys - between.Keys)
    ensures Backed(was, now, orders', sid, strategy, proposals) && Evolves(orders0, orders', now.Keys - was.Keys)
  {
    BackedOn(was, between, orders, orders', now.Keys - between.Keys, sid, strategy, proposals);
    hide Proposed, ShouldRest;
    forall id | id in now && id !in was
      ensures now[id].strategy == sid && strategy.running && Proposed(proposals, sid, strategy.symbol, now[id].side, RecordOf(orders', id))
    {
      if id !in between {
        ProposedAmong(proposals, i, sid, strategy.symbol, now[id].side, RecordOf(orders', id));
      }
    }
  }

  lemma {:induction false} EvolvesFurther(a: map<OrderId, OrderRec>, b: map<OrderId, OrderRec>, c: map<OrderId, OrderRec>, extra: set<OrderId>)
    requires Evolves(a, b, {}) && Evolves(b, c, extra)
    ensures Evolves(a, c, extra)
  {
  }

  lemma {:induction false} NoneAcceptable(sid: StrategyId, strategy: Strategy, proposals: seq<Proposal>)
    requires forall i :: 0 <= i < |proposals| ==> !proposals[i].passes
    ensures AcceptableOrders(sid, strategy, proposals) == []
  {
    if proposals != [] {
      NoneAcceptable(sid, strategy, proposals[..|proposals| - 1]);
    }
  }

  lemma {:induction false} PlacedNothing(capacity: nat, sid: StrategyId, f: Floor, g: Floor)
    requires Placed(capacity, sid, [], f, g)
    ensures g == f
  {
  }

  /** How many of the proposals are submitted. */
  function Accepted(sid: StrategyId, strategy: Strategy, proposals: seq<Proposal>): nat {
    if proposals == [] then 0
    else Accepted(sid, strategy, proposals[..|proposals| - 1]) + (if Acceptable(sid, strategy, proposals[|proposals| - 1]) then 1 else 0)
  }

  function AcceptedOf(sid: StrategyId, strategy: Strategy, response: Response): nat {
    if response.Raises? then 0 else Accepted(sid, strategy, response.proposals)
  }

  /** Whether a strategy is asked about an event. */
  predicate Asked(strategies: map<StrategyId, Strategy>, sid: StrategyId, symbol: Symbol) {
    sid in strategies && strategies[sid].running && strategies[sid].symbol == symbol
  }

  predicate Heard(strategies: map<StrategyId, Strategy>, sid: StrategyId, symbol: Symbol, responses: map<StrategyId, Response>) {
    Asked(strategies, sid, symbol) && sid in responses
  }

  function AcceptedAll(strategies: map<StrategyId, Strategy>, names: seq<StrategyId>, symbol: Symbol, responses: map<StrategyId, Response>): nat {
    if names == [] then 0
    else
      var sid := names[|names| - 1];
      AcceptedAll(strategies, names[..|names| - 1], symbol, responses)
      + (if Heard(strategies, sid, symbol, responses) then AcceptedOf(sid, strategies[sid], responses[sid]) else 0)
  }

  /** A set of quotes that takes the place of the open orders. */
  predicate Replaces(response: Response, update: bool, strategy: Strategy) {
    update && response.Proposes? && response.proposals != [] && strategy.replaceOpen
  }

  predicate Raised(was: map<StrategyId, Strategy>, sid: StrategyId, names: seq<StrategyId>, symbol: Symbol, responses: map<StrategyId, Response>) {
    sid in names && Heard(was, sid, symbol, responses) && responses[sid].Raises?
  }

  /** The strategies that were asked and raised have been stopped; nothing else about any strategy has changed. */
  ghost predicate Answered(was: map<StrategyId, Strategy>, now: map<StrategyId, Strategy>, names: seq<StrategyId>, symbol: Symbol,
                           responses: map<StrategyId, Response>)
  {
    was.Keys == now.Keys
    && forall sid :: sid in was ==> now[sid] == was[sid].(running := was[sid].running && !Raised(was, sid, names, symbol, responses))
  }

  lemma {:induction false} NoneAnswered(strategies: map<StrategyId, Strategy>, symbol: Symbol, responses: map<StrategyId, Response>)
    ensures Answered(strategies, strategies, [], symbol, responses) && AcceptedAll(strategies, [], symbol, responses) == 0
  {
  }

  lemma {:induction false} NotYetAnswered(was: map<StrategyId, Strategy>, before: map<StrategyId, Strategy>, names: seq<StrategyId>, i: nat,
                                          symbol: Symbol, responses: map<StrategyId, Response>)
    requires i < |names| && names[i] in was && (forall j :: 0 <= j < i ==> names[j] != names[i])
    requires Answered(was, before, names[..i], symbol, responses)
    ensures before[names[i]] == was[names[i]]
  {
  }

  lemma {:induction false} OneAnswered(was: map<StrategyId, Strategy>, before: map<StrategyId, Strategy>, now: map<StrategyId, Strategy>,
                                       names: seq<StrategyId>, i: nat, symbol: Symbol, responses: map<StrategyId, Response>)
    requires i < |names| && names[i] in was && (forall j :: 0 <= j < i ==> names[j] != names[i])
    requires Answered(was, before, names[..i], symbol, responses) && before[names[i]] == was[names[i]]
    requires now == if !Heard(was, names[i], symbol, responses) then before
                    else before[names[i] := was[names[i]].(running := was[names[i]].running && responses[names[i]].Proposes?)]
    ensures Answered(was, now, names[..i + 1], symbol, responses)
    ensures AcceptedAll(was, names[..i + 1], symbol, responses)
              == AcceptedAll(was, names[..i], symbol, responses)
                 + (if Heard(was, names[i], symbol, responses) then AcceptedOf(names[i], was[names[i]], responses[names[i]]) else 0)
  {
    assert names[..i + 1][..i] == names[..i];
    assert names[..i + 1] == names[..i] + [names[i]];
    assert forall sid :: sid in names[..i + 1] <==> sid in names[..i] || sid == names[i];
  }

  /** Positions do not decide who is asked, nor what is accepted. */
  lemma {:induction false} SameAccepted(was: map<StrategyId, Strategy>, now: map<StrategyId, Strategy>, names: seq<StrategyId>,
                                        symbol: Symbol, responses: map<StrategyId, Response>)
    requires was.Keys == now.Keys && forall sid :: sid in was ==> now[sid] == was[sid].(position := now[sid].position)
    ensures AcceptedAll(was, names, symbol, responses) == AcceptedAll(now, names, symbol, responses)
    ensures forall sid :: Raised(was, sid, names, symbol, responses) <==> Raised(now, sid, names, symbol, responses)
  {
    if names != [] {
      var k := |names| - 1;
      SameAccepted(was, now, names[..k], symbol, responses);
      if Heard(was, names[k], symbol, responses) && responses[names[k]].Proposes? {
        SameProposals(names[k], was[names[k]], now[names[k]], responses[names[k]].proposals);
      }
    }
  }

  lemma {:induction false} SameProposals(sid: StrategyId, a: Strategy, b: Strategy, proposals: seq<Proposal>)
    requires b == a.(position := b.position)
    ensures Accepted(sid, a, proposals) == Accepted(sid, b, proposals)
  {
    if proposals != [] {
      SameProposals(sid, a, b, proposals[..|proposals| - 1]);
    }
  }

  /** What one event does to the strategies: the trade is booked, and whoever raised is stopped. */
  ghost predicate Reacted(event: Event, owned: map<OrderId, Owner>, was: map<StrategyId, Strategy>, now: map<StrategyId, Strategy>,
                          names: seq<StrategyId>, responses: map<StrategyId, Response>)
  {
    was.Keys == now.Keys
    && forall sid :: sid in was ==>
         now[sid] == was[sid].(position := was[sid].position + (if event.TradeEvent? then Signed(event.trade, owned, sid) else 0),
                               running := was[sid].running && !Raised(was, sid, names, About(event), responses))
  }

  lemma {:induction false} BookedThenAnswered(event: Event, owned: map<OrderId, Owner>, was: map<StrategyId, Strategy>, between: map<StrategyId, Strategy>,
                                              now: map<StrategyId, Strategy>, names: seq<StrategyId>, responses: map<StrategyId, Response>)
    requires between == BookedBy(was, owned, event) && Answered(between, now, names, About(event), responses)
    ensures Reacted(event, owned, was, now, names, responses)
    ensures AcceptedAll(between, names, About(event), responses) == AcceptedAll(was, names, About(event), responses)
  {
    hide Signed;
    SameAccepted(was, between, names, About(event), responses);
    hide Raised, AcceptedAll;
  }

  /** `n` new orders of the strategy, and nothing lost. */
  ghost predicate Enlarged(was: map<OrderId, Owner>, now: map<OrderId, Owner>, sid: StrategyId, n: nat) {
    && |now| == |was| + n && was.Keys <= now.Keys && (forall id :: id in was ==> now[id] == was[id])
    && (forall id :: id in now && id !in was ==> now[id].strategy == sid)
  }

  lemma {:induction false} EnlargedSize(was: map<OrderId, Owner>, now: map<OrderId, Owner>, sid: StrategyId, n: nat)
    requires Enlarged(was, now, sid, n)
    ensures |now| == |was| + n && was.Keys <= now.Keys
  {
  }

  lemma {:induction false} NotEnlarged(owned: map<OrderId, Owner>, sid: StrategyId)
    ensures Enlarged(owned, owned, sid, 0)
  {
  }

  lemma {:induction false} EnlargedByOne(was: map<OrderId, Owner>, before: map<OrderId, Owner>, now: map<OrderId, Owner>, sid: StrategyId, n: nat, side: Side)
    requires Enlarged(was, before, sid, n)
    requires exists id :: id !in before && now == before[id := Owner(sid, side)]
    ensures Enlarged(was, now, sid, n + 1)
  {
    var id :| id !in before && now == before[id := Owner(sid, side)];
    assert now.Keys == before.Keys + {id};
    assert |now.Keys| == |before.Keys| + 1;
  }

  /** A market maker answers a book update with at most one order a side, and a trade with none. */
  ghost predicate Quoting(response: Response, update: bool) {
    response.Raises? || (AtMostOneASide(response.proposals) && (update || response.proposals == []))
  }

  /** Market makers answer an event as market makers do. */
  ghost predicate Quotes(callbacks: Callbacks, event: Event) {
    forall sid, strategy: Strategy, e :: strategy.quotes ==> Quoting(callbacks(sid, strategy, event, e), event.BookUpdateEvent?)
  }

  lemma {:induction false} Quoted(callbacks: Callbacks, event: Event, sid: StrategyId, strategy: Strategy, e: Engine)
    requires Quotes(callbacks, event)
    ensures strategy.quotes ==> Quoting(callbacks(sid, strategy, event, e), event.BookUpdateEvent?)
  {
  }

  /** The strategies still to be asked have what they had open. */
  ghost predicate LaterOpen(names: seq<StrategyId>, i: nat, was: map<StrategyId, set<OrderId>>, now: map<StrategyId, set<OrderId>>) {
    was.Keys == now.Keys && forall j :: i <= j < |names| && names[j] in was ==> now[names[j]] == was[names[j]]
  }

  lemma {:induction false} StillLater(names: seq<StrategyId>, i: nat, was: map<StrategyId, set<OrderId>>, between: map<StrategyId, set<OrderId>>,
                                      now: map<StrategyId, set<OrderId>>)
    requires i < |names| && (forall j :: i < j < |names| ==> names[j] != names[i])
    requires LaterOpen(names, i, was, between) && SameOthers(between, now, names[i])
    ensures LaterOpen(names, i + 1, was, now)
  {
  }

  /** Where the answers stand after the first `i` strategies. */
  ghost predicate SoFar(capacity: nat, names: seq<StrategyId>, i: nat, was: map<StrategyId, Strategy>, had: map<StrategyId, set<OrderId>>, event: Event,
                        callbacks: Callbacks, responses: map<StrategyId, Response>, f: Floor, now: map<StrategyId, Strategy>,
                        open: map<StrategyId, set<OrderId>>, g: Floor)
  {
    && i <= |names| && LaterOpen(names, i, had, open) && (forall j :: i <= j < |names| ==> names[j] !in responses)
    && AllAnswered(capacity, names[..i], was, had, event, callbacks, responses, f, g)
    && Answered(was, now, names[..i], About(event), responses)
    && |g.owned| == |f.owned| + AcceptedAll(was, names[..i], About(event), responses)
    && (forall sid :: sid in responses <==> sid in names[..i] && Asked(was, sid, About(event)))
    && Vouched(f.owned, g.owned, g.engine.orders, was, responses)
  }

  lemma {:induction false} NobodyAnswered(capacity: nat, names: seq<StrategyId>, was: map<StrategyId, Strategy>, had: map<StrategyId, set<OrderId>>,
                                          event: Event, callbacks: Callbacks, f: Floor)
    ensures SoFar(capacity, names, 0, was, had, event, callbacks, map[], f, was, had, f)
  {
    hide Proposed;
    NoneAnswered(was, About(event), map[]);
    assert names[..0] == [];
  }

  lemma {:induction false} AllHeard(capacity: nat, names: seq<StrategyId>, was: map<StrategyId, Strategy>, had: map<StrategyId, set<OrderId>>, event: Event,
                                    callbacks: Callbacks, responses: map<StrategyId, Response>, f: Floor, now: map<StrategyId, Strategy>,
                                    open: map<StrategyId, set<OrderId>>, g: Floor)
    requires SoFar(capacity, names, |names|, was, had, event, callbacks, responses, f, now, open, g)
    ensures AllAnswered(capacity, names, was, had, event, callbacks, responses, f, g)
    ensures Answered(was, now, names, About(event), responses)
    ensures |g.owned| == |f.owned| + AcceptedAll(was, names, About(event), responses)
    ensures Vouched(f.owned, g.owned, g.engine.orders, was, responses)
    ensures forall sid :: sid in responses <==> sid in names && Asked(was, sid, About(event))
  {
    hide AllAnswered, Answered, AcceptedAll, Vouched, Asked;
    assert names[..|names|] == names;
  }

  /** The strategy to be asked next is as it was, and so is what it has open. */
  lemma {:induction false} NextInLine(capacity: nat, names: seq<StrategyId>, i: nat, was: map<StrategyId, Strategy>, had: map<StrategyId, set<OrderId>>,
                                      event: Event, callbacks: Callbacks, responses: map<StrategyId, Response>, f: Floor, now: map<StrategyId, Strategy>,
                                      open: map<StrategyId, set<OrderId>>, g: Floor)
    requires SoFar(capacity, names, i, was, had, event, callbacks, responses, f, now, open, g)
    requires i < |names| && names[i] in was && forall j :: 0 <= j < |names| && j != i ==> names[j] != names[i]
    ensures names[i] in now && now[names[i]] == was[names[i]]
    ensures names[i] in open ==> names[i] in had && open[names[i]] == had[names[i]]
  {
    hide AllAnswered, AcceptedAll, Vouched;
    NotYetAnswered(was, now, names, i, About(event), responses);
  }

  /** A further answer changes nothing about those before it. */
  lemma {:induction false} MoreResponses(capacity: nat, names: seq<StrategyId>, was: map<StrategyId, Strategy>, now: map<StrategyId, Strategy>,
                                         open: map<StrategyId, set<OrderId>>, event: Event, callbacks: Callbacks, responses: map<StrategyId, Response>,
                                         sid: StrategyId, response: Response, f: Floor, g: Floor)
    requires sid !in names && Answered(was, now, names, About(event), responses)
    requires AllAnswered(capacity, names, was, open, event, callbacks, responses, f, g)
    ensures AllAnswered(capacity, names, was, open, event, callbacks, responses[sid := response], f, g)
    ensures Answered(was, now, names, About(event), responses[sid := response])
    ensures AcceptedAll(was, names, About(event), responses[sid := response]) == AcceptedAll(was, names, About(event), responses)
  {
    AnswersStand(capacity, names, was, open, event, callbacks, responses, sid, response, f, g);
    CountStands(names, was, About(event), responses, sid, response);
    hide AllAnswered, AcceptedAll;
  }

  lemma {:induction false} AnswersStand(capacity: nat, names: seq<StrategyId>, strategies: map<StrategyId, Strategy>,
                                        open: map<StrategyId, set<OrderId>>, event: Event, callbacks: Callbacks, responses: map<StrategyId, Response>,
                                        sid: StrategyId, response: Response, f: Floor, g: Floor)
    requires sid !in names && AllAnswered(capacity, names, strategies, open, event, callbacks, responses, f, g)
    ensures AllAnswered(capacity, names, strategies, open, event, callbacks, responses[sid := response], f, g)
    decreases |names|
  {
    hide AnsweredWith;
    if names != [] {
      var front, last := names[..|names| - 1], names[|names| - 1];
      if !Asked(strategies, last, About(event)) {
        AnswersStand(capacity, front, strategies, open, event, callbacks, responses, sid, response, f, g);
      } else {
        var m :| && AllAnswered(capacity, front, strategies, open, event, callbacks, responses, f, m)
                 && responses[last] == callbacks(last, strategies[last], event, m.engine)
                 && AnsweredWith(capacity, last, strategies[last], open[last], responses[last], event.BookUpdateEvent?, m, g);
        AnswersStand(capacity, front, strategies, open, event, callbacks, responses, sid, response, f, m);
      }
    }
  }

  lemma {:induction false} CountStands(names: seq<StrategyId>, strategies: map<StrategyId, Strategy>, symbol: Symbol, responses: map<StrategyId, Response>,
                                       sid: StrategyId, response: Response)
    requires sid !in names
    ensures AcceptedAll(strategies, names, symbol, responses[sid := response]) == AcceptedAll(strategies, names, symbol, responses)
  {
    if names != [] {
      CountStands(names[..|names| - 1], strategies, symbol, responses, sid, response);
    }
  }

  lemma {:induction false} AnswersGrow(capacity: nat, names: seq<StrategyId>, i: nat, was: map<StrategyId, Strategy>,
                                       had: map<StrategyId, set<OrderId>>, event: Event, callbacks: Callbacks, responses: map<StrategyId, Response>,
                                       f: Floor, m: Floor, g: Floor)
    requires i < |names| && AllAnswered(capacity, names[..i], was, had, event, callbacks, responses, f, m)
    requires if !Asked(was, names[i], About(event)) then g == m
             else names[i] in responses && names[i] in had
                  && responses[names[i]] == callbacks(names[i], was[names[i]], event, m.engine)
                  && AnsweredWith(capacity, names[i], was[names[i]], had[names[i]], responses[names[i]], event.BookUpdateEvent?, m, g)
    ensures AllAnswered(capacity, names[..i + 1], was, had, event, callbacks, responses, f, g)
  {
    hide AnsweredWith;
    assert names[..i + 1][..i] == names[..i];
  }

  lemma {:induction false} OneMoreName(names: seq<StrategyId>, i: nat)
    requires i < |names|
    ensures forall sid :: sid in names[..i + 1] <==> sid in names[..i] || sid == names[i]
  {
    assert names[..i + 1] == names[..i] + [names[i]];
  }

  /** Every order newly owned is that of a proposal, within limits, of a running strategy that was asked. */
  ghost predicate Vouched(was: map<OrderId, Owner>, now: map<OrderId, Owner>, orders: map<OrderId, OrderRec>, strategies: map<StrategyId, Strategy>,
                          responses: map<StrategyId, Response>)
  {
    && (forall id :: id in was ==> id in now && now[id] == was[id])
    && forall id :: id in now && id !in was ==>
         && now[id].strategy in strategies && strategies[now[id].strategy].running
         && now[id].strategy in responses && responses[now[id].strategy].Proposes?
         && Proposed(responses[now[id].strategy].proposals, now[id].strategy, strategies[now[id].strategy].symbol, now[id].side, RecordOf(orders, id))
         && (id in orders ==> orders[id].id == id)
  }

  lemma {:induction false} VouchedMore(was: map<OrderId, Owner>, between: map<OrderId, Owner>, now: map<OrderId, Owner>, orders: map<OrderId, OrderRec>,
                                       orders': map<OrderId, OrderRec>, strategies: map<StrategyId, Strategy>, responses: map<StrategyId, Response>,
                                       sid: StrategyId, response: Response)
    requires Vouched(was, between, orders, strategies, responses) && sid !in responses && sid in strategies
    requires Evolves(orders, orders', now.Keys - between.Keys)
    requires Backed(between, now, orders', sid, strategies[sid], if response.Raises? then [] else response.proposals)
    ensures Vouched(was, now, orders', strategies, responses[sid := response])
  {
    hide Proposed, ShouldRest;
    forall id | id in now && id !in was && id in between
      ensures var owner := now[id];
              && owner.strategy in strategies && owner.strategy in responses && responses[owner.strategy].Proposes?
              && Proposed(responses[owner.strategy].proposals, owner.strategy, strategies[owner.strategy].symbol, owner.side, RecordOf(orders', id))
    {
      var owner := now[id];
      if id in orders {
        StillProposed(responses[owner.strategy].proposals, owner.strategy, strategies[owner.strategy].symbol, owner.side, orders[id], orders'[id]);
      }
    }
    forall id | id in now && id !in between
      ensures response.Proposes? && Proposed(response.proposals, sid, strategies[sid].symbol, now[id].side, RecordOf(orders', id))
    {
      if response.Raises? {
        NoneProposed(sid, strategies[sid].symbol, now[id].side, RecordOf(orders', id));
      }
    }
  }

  lemma {:induction false} NoneProposed(sid: StrategyId, symbol: Symbol, side: Side, r: Option<OrderRec>)
    ensures !Proposed([], sid, symbol, side, r)
  {
  }

  /** Booking trades changes neither who runs nor what is traded. */
  lemma {:induction false} VouchedBooked(strategies: map<StrategyId, Strategy>, owned: map<OrderId, Owner>, event: Event, was: map<OrderId, Owner>,
                                         now: map<OrderId, Owner>, orders: map<OrderId, OrderRec>, responses: map<StrategyId, Response>)
    requires Vouched(was, now, orders, BookedBy(strategies, owned, event), responses)
    ensures Vouched(was, now, orders, strategies, responses)
  {
    hide Proposed, Signed;
  }

  lemma {:induction false} AskedBooked(strategies: map<StrategyId, Strategy>, owned: map<OrderId, Owner>, event: Event, sid: StrategyId)
    ensures Asked(BookedBy(strategies, owned, event), sid, About(event)) <==>
            sid in strategies && strategies[sid].running
            && strategies[sid].symbol == match event case TradeEvent(trade) => trade.symbol case BookUpdateEvent(symbol, _) => symbol
  {
    hide Signed;
  }

  /** One more strategy has answered. */
  lemma {:induction false} OneMoreAnswer(capacity: nat, names: seq<StrategyId>, i: nat, was: map<StrategyId, Strategy>, had: map<StrategyId, set<OrderId>>,
                                         event: Event, callbacks: Callbacks, responses: map<StrategyId, Response>, response: Response, f: Floor,
                                         before: map<StrategyId, Strategy>, open: map<StrategyId, set<OrderId>>, m: Floor,
                                         now: map<StrategyId, Strategy>, open': map<StrategyId, set<OrderId>>, g: Floor)
    requires SoFar(capacity, names, i, was, had, event, callbacks, responses, f, before, open, m)
    requires i < |names| && Asked(was, names[i], About(event)) && names[i] in open && SameOthers(open, open', names[i])
    requires forall j :: 0 <= j < |names| && j != i ==> names[j] != names[i]
    requires response == callbacks(names[i], was[names[i]], event, m.engine)
    requires AnsweredWith(capacity, names[i], was[names[i]], open[names[i]], response, event.BookUpdateEvent?, m, g)
    requires now == before[names[i] := was[names[i]].(running := was[names[i]].running && response.Proposes?)]
    requires |g.owned| == |m.owned| + AcceptedOf(names[i], was[names[i]], response)
    requires Evolves(m.engine.orders, g.engine.orders, g.owned.Keys - m.owned.Keys)
    requires Backed(m.owned, g.owned, g.engine.orders, names[i], was[names[i]], if response.Raises? then [] else response.proposals)
    ensures SoFar(capacity, names, i + 1, was, had, event, callbacks, responses[names[i] := response], f, now, open', g)
  {
    hide AnsweredWith, AllAnswered, AcceptedOf, AcceptedAll, Answered, SameOthers, Evolves, Backed, Vouched;
    var more := responses[names[i] := response];
    NextInLine(capacity, names, i, was, had, event, callbacks, responses, f, before, open, m);
    MoreResponses(capacity, names[..i], was, before, had, event, callbacks, responses, names[i], response, f, m);
    StillLater(names, i, had, open, open');
    AnswersGrow(capacity, names, i, was, had, event, callbacks, more, f, m, g);
    OneMoreName(names, i);
    VouchedMore(f.owned, m.owned, g.owned, m.engine.orders, g.engine.orders, was, responses, names[i], response);
    OneAnswered(was, before, now, names, i, About(event), more);
  }

  lemma {:induction false} OneNotAsked(capacity: nat, names: seq<StrategyId>, i: nat, was: map<StrategyId, Strategy>, had: map<StrategyId, set<OrderId>>,
                                       event: Event, callbacks: Callbacks, responses: map<StrategyId, Response>, f: Floor,
                                       now: map<StrategyId, Strategy>, open: map<StrategyId, set<OrderId>>, g: Floor)
    requires SoFar(capacity, names, i, was, had, event, callbacks, responses, f, now, open, g)
    requires i < |names| && names[i] in was && !Asked(was, names[i], About(event))
    requires forall j :: 0 <= j < |names| && j != i ==> names[j] != names[i]
    ensures SoFar(capacity, names, i + 1, was, had, event, callbacks, responses, f, now, open, g)
  {
    hide AnsweredWith, AllAnswered, AcceptedAll, Answered, Vouched;
    OneMoreName(names, i);
    NextInLine(capacity, names, i, was, had, event, callbacks, responses, f, now, open, g);
    AnswersGrow(capacity, names, i, was, had, event, callbacks, responses, f, g, g);
    OneAnswered(was, now, now, names, i, About(event), responses);
  }

  /** Strategies come and go only by registration; reacting changes running flags and positions only. */
  ghost predicate SameStrategies(was: map<StrategyId, Strategy>, now: map<StrategyId, Strategy>) {
    && was.Keys == now.Keys
    && forall sid :: sid in was ==> now[sid] == was[sid].(running := now[sid].running, position := now[sid].position)
  }

  lemma {:induction false} StillCore(r: StrategyRuntime)
    requires r.Valid()
    ensures r.Core()
  {
  }

  lemma {:induction false} StillValid(r: StrategyRuntime, orders: map<OrderId, OrderRec>)
    requires r.Core() && StoppedAreSilent(r.owned, orders, r.strategies) && Evolves(orders, r.engine.orders, {})
    ensures r.Valid()
  {
    EvolvingKeeps(r.owned, orders, r.engine.orders, {}, r.strategies, r.open);
  }

  lemma {:induction false} RosterOpens(r: StrategyRuntime, sid: StrategyId)
    requires r.Valid() && sid in r.strategies
    ensures sid in r.open
  {
  }

  lemma {:induction false} QuotersReplace(r: StrategyRuntime, sid: StrategyId)
    requires r.Valid() && sid in r.strategies
    ensures r.strategies[sid].quotes ==> r.strategies[sid].replaceOpen
  {
  }

  lemma {:induction false} KnownName(r: StrategyRuntime, i: nat)
    requires r.Valid() && i < |r.names|
    ensures r.names[i] in r.strategies && r.names[i] in r.open && forall j :: 0 <= j < |r.names| && j != i ==> r.names[j] != r.names[i]
  {
  }

  /** No order but these has changed. */
  ghost predicate OnlyThese(orders: map<OrderId, OrderRec>, orders': map<OrderId, OrderRec>, ids: set<OrderId>) {
    forall id :: id in orders && id !in ids ==> id in orders' && orders'[id] == orders[id]
  }

  lemma {:induction false} CancelsOne(w: World, id: OrderId)
    requires Good(w)
    ensures OnlyThese(w.engine.orders, EngineSpec.CancelOrder(w.engine, id).0.orders, {id})
  {
    hide EngineRuns.Good, EngineSpec.CancelOrder;
    CancelChanges(w, id);
  }

  /** Everything the runtime keeps about its strategies and their orders. */
  ghost predicate Books(names: seq<StrategyId>, owned: map<OrderId, Owner>, orders: map<OrderId, OrderRec>, strategies: map<StrategyId, Strategy>,
                        open: map<StrategyId, set<OrderId>>)
  {
    RosterOk(names, strategies, open) && OwnedOk(owned, orders, strategies, open) && StoppedAreSilent(owned, orders, strategies)
  }

  lemma {:induction false} OwnerKnown(names: seq<StrategyId>, owned: map<OrderId, Owner>, orders: map<OrderId, OrderRec>,
                                      strategies: map<StrategyId, Strategy>, open: map<StrategyId, set<OrderId>>, id: OrderId)
    requires Books(names, owned, orders, strategies, open) && id in owned
    ensures owned[id].strategy in strategies && owned[id].strategy in open
  {
  }

  /** A new position, and an order that is no longer active no longer open. */
  lemma {:induction false} Booked(names: seq<StrategyId>, owned: map<OrderId, Owner>, orders: map<OrderId, OrderRec>, strategies: map<StrategyId, Strategy>,
                                  open: map<StrategyId, set<OrderId>>, sid: StrategyId, position: int, id: OrderId, active: bool)
    requires Books(names, owned, orders, strategies, open) && sid in strategies && sid in open
    requires active == (id in orders && orders[id].IsActive())
    ensures var now := strategies[sid := strategies[sid].(position := position)];
            Books(names, owned, orders, now, if active then open else open[sid := open[sid] - {id}]) && SameStrategies(strategies, now)
  {
    var now := strategies[sid := strategies[sid].(position := position)];
    RosterStays(names, strategies, now, open, if active then open else open[sid := open[sid] - {id}]);
    hide RosterOk;
    if !active {
      Closed(owned, orders, now, open, sid, id);
    }
  }

  lemma {:induction false} OneMore(log: seq<Trade>, taken: nat, owned: map<OrderId, Owner>)
    requires taken < |log|
    ensures forall sid :: SignedSum(log[..taken + 1], owned, sid) == SignedSum(log[..taken], owned, sid) + Signed(log[taken], owned, sid)
  {
    assert log[..taken + 1][..taken] == log[..taken];
  }

  /** No working order of the strategy is on this side. */
  ghost predicate SideFree(owned: map<OrderId, Owner>, orders: map<OrderId, OrderRec>, sid: StrategyId, side: Side) {
    forall id :: id in owned && owned[id] == Owner(sid, side) ==> !Working(orders, id)
  }

  ghost predicate AtMostOneASide(proposals: seq<Proposal>) {
    forall i, j :: 0 <= i < j < |proposals| ==> proposals[i].order.side != proposals[j].order.side
  }

  /** A finite set of ids leaves others. */
  lemma {:induction false} SomeNewId(used: set<OrderId>)
    ensures exists id: OrderId :: id !in used
  {
    var top := AboveAll(used);
    assert top !in used;
  }

  lemma {:induction false} SomeOf<T>(s: set<T>) returns (x: T)
    requires s != {}
    ensures x in s
  {
    x :| x in s;
  }

  lemma {:induction false} AboveAll(used: set<OrderId>) returns (top: OrderId)
    ensures forall id :: id in used ==> id < top
    decreases |used|
  {
    if used == {} {
      top := 0;
    } else {
      var x := SomeOf(used);
      top := AboveAll(used - {x});
      if x >= top {
        top := x + 1;
      }
      assert used == (used - {x}) + {x};
    }
  }

  /** Owning an order the engine has not seen changes no position. */
  lemma {:induction false} NewlyOwned(r: StrategyRuntime, id: OrderId, owner: Owner)
    requires r.EngineOk() && r.PositionsOk() && id !in r.engine.orders
    ensures r.dropped == 0 ==>
              (r.taken <= |r.world.log|
               && forall sid :: sid in r.strategies ==> r.strategies[sid].position == SignedSum(r.world.log[..r.taken], r.owned[id := owner], sid))
  {
    LogNames(r.world);
    hide EngineRuns.Good, SignedSum;
    if r.dropped == 0 {
      forall sid | sid in r.strategies
        ensures r.strategies[sid].position == SignedSum(r.world.log[..r.taken], r.owned[id := owner], sid)
      {
        SumSame(r.world.log[..r.taken], r.owned, id, owner, sid);
      }
    }
  }

  lemma {:induction false} LogNames(w: World)
    requires Good(w)
    ensures forall i :: 0 <= i < |w.log| ==> w.log[i].maker in w.engine.orders && w.log[i].taker in w.engine.orders
  {
    OrdersSane(w);
    hide EngineRuns.Good;
  }

  /** What an order submitted by a running strategy leaves true. */
  lemma {:induction false} Submitted(owned: map<OrderId, Owner>, orders: map<OrderId, OrderRec>, orders': map<OrderId, OrderRec>, strategies: map<StrategyId, Strategy>,
                                     open: map<StrategyId, set<OrderId>>, sid: StrategyId, side: Side, id: OrderId)
    requires sid in strategies && strategies[sid].running && sid in open && id !in owned && id !in orders
    requires Evolves(orders, orders', {id}) && (id in orders' ==> orders'[id].side == side)
    requires OwnedOk(owned, orders, strategies, open) && StoppedAreSilent(owned, orders, strategies)
    requires strategies[sid].quotes ==> SideFree(owned, orders, sid, side)
    ensures OwnedOk(owned[id := Owner(sid, side)], orders', strategies, open[sid := open[sid] + {id}])
    ensures StoppedAreSilent(owned[id := Owner(sid, side)], orders', strategies)
    ensures forall s :: s != side && SideFree(owned, orders, sid, s) ==> SideFree(owned[id := Owner(sid, side)], orders', sid, s)
    ensures forall i :: i in owned && !Working(orders, i) ==> !Working(orders', i)
  {
    EvolvingKeeps(owned, orders, orders', {id}, strategies, open);
  }

  /** A newcomer owns nothing. */
  lemma {:induction false} Joins(owned: map<OrderId, Owner>, orders: map<OrderId, OrderRec>, strategies: map<StrategyId, Strategy>,
                                 open: map<StrategyId, set<OrderId>>, sid: StrategyId, strategy: Strategy)
    requires OwnedOk(owned, orders, strategies, open) && StoppedAreSilent(owned, orders, strategies) && sid !in strategies
    ensures OwnedOk(owned, orders, strategies[sid := strategy], open[sid := {}]) && StoppedAreSilent(owned, orders, strategies[sid := strategy])
    ensures forall id :: id in owned ==> owned[id].strategy != sid
  {
  }

  lemma {:induction false} Switches(owned: map<OrderId, Owner>, orders: map<OrderId, OrderRec>, strategies: map<StrategyId, Strategy>,
                                    open: map<StrategyId, set<OrderId>>, sid: StrategyId, running: bool)
    requires OwnedOk(owned, orders, strategies, open) && sid in strategies
    ensures OwnedOk(owned, orders, strategies[sid := strategies[sid].(running := running)], open)
    ensures running && StoppedAreSilent(owned, orders, strategies) ==> StoppedAreSilent(owned, orders, strategies[sid := strategies[sid].(running := true)])
  {
  }

  lemma {:induction false} Closed(owned: map<OrderId, Owner>, orders: map<OrderId, OrderRec>, strategies: map<StrategyId, Strategy>,
                                  open: map<StrategyId, set<OrderId>>, sid: StrategyId, id: OrderId)
    requires OwnedOk(owned, orders, strategies, open) && sid in open && !Working(orders, id)
    ensures OwnedOk(owned, orders, strategies, open[sid := open[sid] - {id}])
  {
  }

  lemma {:induction false} NothingOpen(owned: map<OrderId, Owner>, orders: map<OrderId, OrderRec>, strategies: map<StrategyId, Strategy>,
                                       open: map<StrategyId, set<OrderId>>, sid: StrategyId)
    requires OwnedOk(owned, orders, strategies, open) && sid in open && open[sid] == {}
    ensures NoneWorking(owned, orders, sid)
  {
  }

  lemma {:induction false} EvolvesOn(a: map<OrderId, OrderRec>, b: map<OrderId, OrderRec>, c: map<OrderId, OrderRec>)
    requires Evolves(a, b, {}) && Evolves(b, c, {})
    ensures Evolves(a, c, {})
  {
  }

  lemma {:induction false} Silenced(owned: map<OrderId, Owner>, orders: map<OrderId, OrderRec>, orders': map<OrderId, OrderRec>,
                                    strategies: map<StrategyId, Strategy>, sid: StrategyId)
    requires sid in strategies && StoppedAreSilent(owned, orders, strategies) && Evolves(orders, orders', {}) && NoneWorking(owned, orders', sid)
    ensures StoppedAreSilent(owned, orders', strategies[sid := strategies[sid].(running := false)])
  {
  }

  lemma {:induction false} Unowned(log: seq<Trade>, owned: map<OrderId, Owner>, sid: StrategyId)
    requires forall id :: id in owned ==> owned[id].strategy != sid
    ensures SignedSum(log, owned, sid) == 0
  {
    if log != [] {
      Unowned(log[..|log| - 1], owned, sid);
    }
  }

  // ---------- what every reachable runtime guarantees ----------

  /** Over the whole log, what the trades say of a strategy is what the engine has filled of its orders. */
  lemma {:induction false} OwnedBalance(w: World, owned: map<OrderId, Owner>, sid: StrategyId)
    requires Good(w)
    ensures SignedSum(w.log, owned, sid) == SumOf(w.admitted, id => OwnedFilled(owned, w.engine.orders, sid, id))
  {
    hide SignedSum, TradeOk, Named, Sane, BooksOk, OrdersOk, Accounted, LogOk;
    OrdersSane(w);
    OwnedTrades(owned, w.engine.orders, w.admitted, sid, w.log);
    var filled := id => OwnedFilled(owned, w.engine.orders, sid, id);
    var named := id => OwnedNamed(owned, w.engine.orders, sid, w.log, id);
    forall i | 0 <= i < |w.admitted|
      ensures filled(w.admitted[i]) == named(w.admitted[i])
    {
    }
    SameSum(w.admitted, filled, named);
  }

  /** Position plus what is still in the queue is what the engine has filled of the strategy's own orders. */
  lemma {:induction false} PositionsAgree(r: StrategyRuntime, sid: StrategyId)
    requires r.Valid() && r.dropped == 0 && sid in r.strategies
    ensures var owned, orders := r.owned, r.engine.orders;
            r.strategies[sid].position + SignedSum(TradesIn(r.queue), owned, sid)
              == SumOf(r.world.admitted, id => OwnedFilled(owned, orders, sid, id))
  {
    hide EngineRuns.Good, OwnedOk, StoppedAreSilent, SignedSum, OwnedFilled;
    var w := r.world;
    SumConcat(w.log[..r.taken], w.log[r.taken..], r.owned, sid);
    assert w.log[..r.taken] + w.log[r.taken..] == w.log;
    OwnedBalance(w, r.owned, sid);
  }

  /**
   Without drops, whoever has followed all events knows every book: the last update
   published for an instrument shows its ten best levels a side as they are now.
   */
  lemma {:induction false} LastUpdateTells(r: StrategyRuntime, symbol: Symbol)
    requires r.Valid() && r.dropped == 0 && symbol in r.engine.books
    ensures var last, book := LastUpdate(r.consumed + r.queue, symbol), r.engine.books[symbol];
            if last.Some? then last.value == TakeSnapshot(book, 10) else book == Book(symbol, [], [], 0)
  {
    hide EngineRuns.Good, OwnedOk, StoppedAreSilent, SignedSum, LastUpdate, BookSpec.TakeSnapshot;
    assert match LastUpdate(r.consumed + r.queue, symbol)
           case Some(shot) => symbol in r.engine.books && shot == TakeSnapshot(r.engine.books[symbol], DEPTH)
           case None => symbol in r.engine.books ==> r.engine.books[symbol] == Book(symbol, [], [], 0);
  }

  /** With room, a submission that is admitted announces its trades and then its book, and one that is refused nothing. */
  lemma {:induction false} SubmissionTold(capacity: nat, f: Floor, order: OrderRec)
    ensures var out := EngineSpec.SubmitOrder(Python, f.engine, order).1;
            var g := Sent(capacity, f, order);
            if out.rejection.Some? then g == f.(engine := g.engine)
            else capacity == 0 || |f.queue| + |out.trades| < capacity ==>
                   && g.dropped == f.dropped && |g.queue| == |f.queue| + |out.trades| + 1 && f.queue <= g.queue
                   && (forall i :: 0 <= i < |out.trades| ==> g.queue[|f.queue| + i] == TradeEvent(out.trades[i]))
                   && order.symbol in g.engine.books
                   && g.queue[|g.queue| - 1] == BookUpdateEvent(order.symbol, TakeSnapshot(g.engine.books[order.symbol], 10))
  {
    hide EngineSpec.SubmitOrder, BookSpec.TakeSnapshot;
    SubmissionShows(f.engine, order);
    var (e, out) := EngineSpec.SubmitOrder(Python, f.engine, order);
    if out.rejection.Some? {
      assert EventsOf(order.symbol, [], None) == [];
      assert f.queue + [] == f.queue;
    } else if capacity == 0 || |f.queue| + |out.trades| < capacity {
      OfferedTells(capacity, f.(engine := e), order.symbol, out.trades, out.snapshot);
    }
  }

  /** A cancellation that finds its order announces the book without it, if there is room, and is counted as dropped if not; any other announces nothing. */
  lemma {:induction false} CancelAnnounces(w: World, capacity: nat, f: Floor, id: OrderId)
    requires Good(w) && f.engine == w.engine
    ensures var g := Withdrawn(capacity, f, id);
            if id in f.engine.orders && ShouldRest(f.engine.orders[id]) then
              var symbol := f.engine.orders[id].symbol;
              && symbol in g.engine.books && id !in Ids(g.engine.books[symbol].bids) + Ids(g.engine.books[symbol].asks)
              && if capacity == 0 || |f.queue| < capacity
                 then g.queue == f.queue + [BookUpdateEvent(symbol, TakeSnapshot(g.engine.books[symbol], 10))] && g.dropped == f.dropped
                 else g.queue == f.queue && g.dropped == f.dropped + 1
            else g == f
  {
    hide EngineRuns.Good, EngineSpec.CancelOrder, BookSpec.TakeSnapshot, ShouldRest, EventsOf;
    CancelWhen(w, id);
    CancellationShows(w, id);
    CancellationEvolves(w, id);
    var (e, r) := EngineSpec.CancelOrder(f.engine, id);
    if r.Some? {
      var shot := TakeSnapshot(e.books[r.value.symbol], DEPTH);
      RestsIff(Next(Python, w, Cancellation(id)), r.value.symbol, id);
      EventsSplit(r.value.symbol, [], Some(shot));
      assert [BookUpdateEvent(r.value.symbol, shot)][..1] == [BookUpdateEvent(r.value.symbol, shot)];
    } else {
      assert f.(engine := e) == f;
    }
  }

  // ---------- nothing without the guard ----------

  /** These orders are withdrawn one after the other. */
  function WithdrawnInTurn(capacity: nat, f: Floor, ids: seq<OrderId>): (g: Floor)
    ensures g.owned == f.owned
    decreases |ids|
  {
    if ids == [] then f else Withdrawn(capacity, WithdrawnInTurn(capacity, f, ids[..|ids| - 1]), ids[|ids| - 1])
  }

  lemma {:induction false} InTurn(capacity: nat, ids: set<OrderId>, f: Floor, g: Floor) returns (turn: seq<OrderId>)
    requires WithdrawnAll(capacity, ids, f, g)
    ensures g == WithdrawnInTurn(capacity, f, turn) && forall id :: id in turn <==> id in ids
    decreases |ids|
  {
    hide Withdrawn;
    if ids == {} {
      turn := [];
    } else {
      var id, m :| id in ids && WithdrawnAll(capacity, ids - {id}, f, m) && g == Withdrawn(capacity, m, id);
      var front := InTurn(capacity, ids - {id}, f, m);
      turn := front + [id];
      assert turn[..|turn| - 1] == front;
    }
  }

  lemma {:induction false} TurnAfterTurn(capacity: nat, f: Floor, a: seq<OrderId>, b: seq<OrderId>)
    ensures WithdrawnInTurn(capacity, f, a + b) == WithdrawnInTurn(capacity, WithdrawnInTurn(capacity, f, a), b)
    decreases |b|
  {
    hide Withdrawn;
    if b == [] {
      assert a + b == a;
    } else {
      assert (a + b)[..|a + b| - 1] == a + b[..|b| - 1];
      TurnAfterTurn(capacity, f, a, b[..|b| - 1]);
    }
  }

  /** An answer whose proposals the guard refuses. */
  predicate Refused(response: Response) {
    response.Proposes? ==> forall i :: 0 <= i < |response.proposals| ==> !response.proposals[i].passes
  }

  lemma {:induction false} RefusedAnswer(capacity: nat, sid: StrategyId, strategy: Strategy, mine: set<OrderId>, response: Response, update: bool,
                                         f: Floor, g: Floor) returns (turn: seq<OrderId>)
    requires Refused(response) && AnsweredWith(capacity, sid, strategy, mine, response, update, f, g)
    ensures g == WithdrawnInTurn(capacity, f, turn) && forall id :: id in turn ==> id in mine
  {
    hide Withdrawn, WithdrawnAll, Placed, Acceptable, AcceptableOrders;
    match response
    case Raises =>
      turn := InTurn(capacity, mine, f, g);
    case Proposes(proposals) =>
      var m :| WithdrawnAll(capacity, if Replaces(response, update, strategy) then mine else {}, f, m)
               && Placed(capacity, sid, AcceptableOrders(sid, strategy, proposals), m, g);
      NoneAcceptable(sid, strategy, proposals);
      PlacedNothing(capacity, sid, m, g);
      turn := InTurn(capacity, if Replaces(response, update, strategy) then mine else {}, f, m);
  }

  /** Where the guard lets nothing pass, an event leads to withdrawals of open orders and to nothing else. */
  lemma {:induction false} NothingPassesNothingSent(capacity: nat, names: seq<StrategyId>, strategies: map<StrategyId, Strategy>,
                                                    open: map<StrategyId, set<OrderId>>, event: Event, callbacks: Callbacks,
                                                    responses: map<StrategyId, Response>, f: Floor, g: Floor) returns (turn: seq<OrderId>)
    requires AllAnswered(capacity, names, strategies, open, event, callbacks, responses, f, g)
    requires forall sid :: sid in responses ==> Refused(responses[sid])
    ensures g == WithdrawnInTurn(capacity, f, turn) && forall id :: id in turn ==> exists sid :: sid in open && id in open[sid]
    decreases |names|
  {
    hide AnsweredWith, WithdrawnInTurn, Refused;
    if names == [] {
      turn := [];
      NoTurn(capacity, f);
    } else {
      var front, sid := names[..|names| - 1], names[|names| - 1];
      if !Asked(strategies, sid, About(event)) {
        turn := NothingPassesNothingSent(capacity, front, strategies, open, event, callbacks, responses, f, g);
      } else {
        var m :| && AllAnswered(capacity, front, strategies, open, event, callbacks, responses, f, m)
                 && responses[sid] == callbacks(sid, strategies[sid], event, m.engine)
                 && AnsweredWith(capacity, sid, strategies[sid], open[sid], responses[sid], event.BookUpdateEvent?, m, g);
        var before := NothingPassesNothingSent(capacity, front, strategies, open, event, callbacks, responses, f, m);
        var last := RefusedAnswer(capacity, sid, strategies[sid], open[sid], responses[sid], event.BookUpdateEvent?, m, g);
        turn := before + last;
        TurnAfterTurn(capacity, f, before, last);
      }
    }
  }

  lemma {:induction false} NoTurn(capacity: nat, f: Floor)
    ensures WithdrawnInTurn(capacity, f, []) == f
  {
  }

  /** No order of a strategy that is not running rests in any book. */
  lemma {:induction false} KillSwitchIsComplete(r: StrategyRuntime, symbol: Symbol, id: OrderId)
    requires r.Valid() && symbol in r.engine.books && id in r.owned && !r.strategies[r.owned[id].strategy].running
    ensures id !in Ids(r.engine.books[symbol].bids) && id !in Ids(r.engine.books[symbol].asks)
  {
    RestsIff(r.world, symbol, id);
    hide EngineRuns.Good, ShouldRest, OwnedOk;
    assert !Working(r.engine.orders, id);
  }

  /** Whatever of a strategy's rests is among the orders it would cancel. */
  lemma {:induction false} RestingIsTracked(r: StrategyRuntime, symbol: Symbol, id: OrderId)
    requires r.Valid() && symbol in r.engine.books && id in r.owned
    requires id in Ids(r.engine.books[symbol].bids) + Ids(r.engine.books[symbol].asks)
    ensures id in r.open[r.owned[id].strategy] && r.strategies[r.owned[id].strategy].running
  {
    RestsIff(r.world, symbol, id);
    hide EngineRuns.Good, ShouldRest, QuotesShaped;
    assert Working(r.engine.orders, id);
  }

  /** A market maker has at most one bid and one ask in the books. */
  lemma {:induction false} OneQuoteASide(r: StrategyRuntime, symbol: Symbol, symbol': Symbol, side: Side, a: OrderId, b: OrderId)
    requires r.Valid() && symbol in r.engine.books && symbol' in r.engine.books && a in r.owned && b in r.owned
    requires r.owned[a].strategy == r.owned[b].strategy && r.strategies[r.owned[a].strategy].quotes
    requires a in Ids(r.engine.books[symbol].Queue(side)) && b in Ids(r.engine.books[symbol'].Queue(side))
    ensures a == b
  {
    QueuedWorks(r.world, symbol, side, a);
    QueuedWorks(r.world, symbol', side, b);
    hide EngineRuns.Good, ShouldRest, Tracked;
  }

  lemma {:induction false} QueuedWorks(w: World, symbol: Symbol, side: Side, id: OrderId)
    requires Good(w) && symbol in w.engine.books && id in Ids(w.engine.books[symbol].Queue(side))
    ensures Working(w.engine.orders, id) && w.engine.orders[id].side == side
  {
    RestsIff(w, symbol, id);
    BookGood(w, symbol);
    SideFacts(BookState(w, symbol), side);
    hide EngineRuns.Good, ShouldRest, BookRuns.DistinctIds, BookRuns.Apart;
    var queue := w.engine.books[symbol].Queue(side);
    var i :| 0 <= i < |queue| && queue[i].id == id;
    assert BookRuns.Resting(queue[i], side, symbol);
  }
}
