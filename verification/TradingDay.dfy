/** A short run of the strategy runtime in which its strategy trades: what holds in every reachable state is not empty talk. */
module TradingDay {
  import opened Domain
  import opened BookSpec
  import opened BookRuns
  import opened EngineSpec
  import opened Runtime

  const SYMBOL: Symbol := "AAPL"
  const MAKER: StrategyId := "maker"

  /** Another participant's offer, and the bid the strategy meets it with. */
  function Offer(): OrderRec { OrderRec(1, SYMBOL, Sell, Limit, Some(10.0), 1, GTC, 0, Pending) }

  function Bid(id: OrderId): OrderRec { OrderRec(id, SYMBOL, Buy, Limit, Some(10.0), 2, GTC, 0, Pending) }

  function Half(id: OrderId): OrderRec { Bid(id).(filled := 1, status := PartiallyFilled) }

  function Done(id: OrderId): Trade { Trade(SYMBOL, 10.0, 1, Buy, 1, id) }

  function Opened(): Engine { EmptyEngine().(books := map[SYMBOL := Book(SYMBOL, [], [], 0)]) }

  /** Bid on every book update; let trades pass. */
  function Answering(sid: StrategyId, strategy: Strategy, event: Event, e: Engine): Response {
    if event.BookUpdateEvent? then Proposes([Proposal(sid, Bid(0), true)]) else Proposes([])
  }

  /** The offer rests. */
  lemma {:induction false} OfferRests(e: Engine)
    requires e.books == map[SYMBOL := Book(SYMBOL, [], [], 0)] && e.orders == map[]
    ensures var (e', out) := SubmitOrder(Python, e, Offer());
            && e'.books == map[SYMBOL := Book(SYMBOL, [], [Offer().(status := Open)], 1)] && e'.orders.Keys == {1}
            && out.trades == [] && out.snapshot.Some?
  {
    hide Submit, TakeSnapshot, Refresh, Count;
    FirstRests(SYMBOL, Offer());
    assert Validate(e.books.Keys, e.orders.Keys, Offer()).None?;
    assert Python.Bound(Offer()) == Offer().price;
  }

  /** The bid takes it whole, and what is left of the bid rests. */
  lemma {:induction false} BidTakes(e: Engine, id: OrderId)
    requires e.books == map[SYMBOL := Book(SYMBOL, [], [Offer().(status := Open)], 1)] && e.orders.Keys == {1} && id != 1
    ensures var (e', out) := SubmitOrder(Python, e, Bid(id));
            && e'.books == map[SYMBOL := Book(SYMBOL, [Half(id)], [], 2)] && out.trades == [Done(id)] && out.snapshot.Some?
  {
    var order, maker := Bid(id), Offer().(status := Open);
    assert [maker][1..] == [];
    assert Match(order.(filled := 1), order.price, []) == Sweep(order.(filled := 1), [], [], []);
    assert Match(order, order.price, [maker]) == Sweep(order.(filled := 1), [AfterFill(maker, 1)], [], [Done(id)]);
    assert Insert([], Half(id)) == [Half(id)];
    hide Match, Insert, TakeSnapshot;
    assert Validate({SYMBOL}, {1}, order).None?;
  }

  /** An unbounded queue takes everything. */
  lemma {:induction false} AllTaken(f: Floor, events: seq<Event>)
    ensures Offered(0, f, events) == f.(queue := f.queue + events)
  {
    assert events[..|events|] == events;
  }

  lemma {:induction false} AfterOffer(f: Floor)
    requires f.engine.books == map[SYMBOL := Book(SYMBOL, [], [], 0)] && f.engine.orders == map[] && f.queue == []
    ensures var g := Sent(0, f, Offer());
            && g.engine.books == map[SYMBOL := Book(SYMBOL, [], [Offer().(status := Open)], 1)] && g.engine.orders.Keys == {1}
            && g.owned == f.owned && |g.queue| == 1 && g.queue[0].BookUpdateEvent? && g.queue[0].symbol == SYMBOL
  {
    hide SubmitOrder, Offered;
    OfferRests(f.engine);
    var (e, out) := SubmitOrder(Python, f.engine, Offer());
    AllTaken(f.(engine := e), EventsOf(SYMBOL, out.trades, out.snapshot));
  }

  lemma {:induction false} AfterBid(f: Floor, id: OrderId, g: Floor)
    requires f.engine.books == map[SYMBOL := Book(SYMBOL, [], [Offer().(status := Open)], 1)] && f.engine.orders.Keys == {1}
    requires f.queue == [] && f.owned == map[] && PlacedOne(0, MAKER, Bid(0), id, f, g)
    ensures g.engine.books == map[SYMBOL := Book(SYMBOL, [Half(id)], [], 2)] && g.owned == map[id := Owner(MAKER, Buy)] && id != 1
    ensures |g.queue| == 2 && g.queue[0] == TradeEvent(Done(id))
  {
    hide SubmitOrder, Offered;
    BidTakes(f.engine, id);
    var m := f.(owned := f.owned[id := Owner(MAKER, Buy)]);
    assert Bid(0).(id := id, filled := 0, status := Pending) == Bid(id);
    var (e, out) := SubmitOrder(Python, f.engine, Bid(id));
    AllTaken(m.(engine := e), EventsOf(SYMBOL, out.trades, out.snapshot));
  }

  /** The strategy's answer to a book update. */
  lemma {:induction false} BidsOnUpdate(strategies: map<StrategyId, Strategy>, open: map<StrategyId, set<OrderId>>, event: Event,
                                        responses: map<StrategyId, Response>, f: Floor, g: Floor)
    requires Asked(strategies, MAKER, SYMBOL) && MAKER in open && open[MAKER] == {} && event.BookUpdateEvent? && event.symbol == SYMBOL
    requires AllAnswered(0, [MAKER], strategies, open, event, Answering, responses, f, g)
    ensures exists id :: PlacedOne(0, MAKER, Bid(0), id, f, g)
    ensures MAKER in responses && responses[MAKER].Proposes?
  {
    hide PlacedOne;
    assert [MAKER][..0] == [];
    assert AnsweredWith(0, MAKER, strategies[MAKER], {}, Answering(MAKER, strategies[MAKER], event, f.engine), true, f, g);
    var proposals := [Proposal(MAKER, Bid(0), true)];
    assert proposals[..0] == [];
    assert AcceptableOrders(MAKER, strategies[MAKER], proposals) == [Bid(0)];
    assert Placed(0, MAKER, [Bid(0)], f, g);
    assert [Bid(0)][..0] == [];
  }

  lemma {:induction false} SilentOnTrade(strategies: map<StrategyId, Strategy>, open: map<StrategyId, set<OrderId>>, event: Event,
                                         responses: map<StrategyId, Response>, f: Floor, g: Floor)
    requires event.TradeEvent? && AllAnswered(0, [MAKER], strategies, open, event, Answering, responses, f, g)
    ensures g == f && (Asked(strategies, MAKER, About(event)) ==> MAKER in responses && responses[MAKER].Proposes?)
  {
    assert [MAKER][..0] == [];
    if Asked(strategies, MAKER, About(event)) {
      assert AnsweredWith(0, MAKER, strategies[MAKER], open[MAKER], Proposes([]), false, f, g);
    }
  }

  lemma {:induction false} Quoter(event: Event)
    ensures Quotes(Answering, event)
  {
  }

  /** A strategy that does not raise goes on. */
  lemma {:induction false} GoesOn(event: Event, owned: map<OrderId, Owner>, was: map<StrategyId, Strategy>, now: map<StrategyId, Strategy>,
                                  responses: map<StrategyId, Response>)
    requires was.Keys == {MAKER} && Reacted(event, owned, was, now, [MAKER], responses)
    requires Asked(was, MAKER, About(event)) ==> MAKER in responses && responses[MAKER].Proposes?
    ensures now == BookedBy(was, owned, event)
  {
    hide Signed;
    assert !Raised(was, MAKER, [MAKER], About(event), responses);
  }

  lemma {:induction false} NothingDropped(r: StrategyRuntime)
    requires r.Valid() && r.capacity == 0
    ensures r.dropped == 0
  {
  }

  /** One market maker, running and flat. */
  function OneQuoter(): map<StrategyId, Strategy> { map[MAKER := Strategy(SYMBOL, true, true, true, 0)] }

  ghost predicate OneMaker(r: StrategyRuntime)
    reads r
  {
    r.capacity == 0 && r.names == [MAKER] && r.strategies == OneQuoter()
  }

  /** A book, a running strategy, and nobody has traded. */
  method Morning() returns (r: StrategyRuntime)
    ensures fresh(r) && r.Valid() && OneMaker(r) && r.Now() == Floor(Opened(), map[], [], 0) && r.open == map[MAKER := {}]
  {
    hide StrategyRuntime.Valid;
    r := new StrategyRuntime(0);
    r.RegisterSymbol(SYMBOL);
    var added := r.AddStrategy(MAKER, SYMBOL, true, true);
    r.StartStrategy(MAKER);
    assert r.strategies == OneQuoter();
  }

  /** Another participant's offer arrives. */
  method Noon(r: StrategyRuntime)
    requires r.Valid() && OneMaker(r) && r.Now() == Floor(Opened(), map[], [], 0)
    modifies r`engine, r`world, r`queue, r`dropped
    ensures r.Valid() && OneMaker(r)
    ensures r.engine.books == map[SYMBOL := Book(SYMBOL, [], [Offer().(status := Open)], 1)] && r.engine.orders.Keys == {1}
    ensures |r.queue| == 1 && r.queue[0].BookUpdateEvent? && r.queue[0].symbol == SYMBOL
  {
    hide StrategyRuntime.Valid, Sent, OneQuoter;
    AfterOffer(r.Now());
    r.ExternalSubmit(Offer());
  }

  /** The strategy bids. */
  method Afternoon(r: StrategyRuntime) returns (ghost id: OrderId)
    requires r.Valid() && OneMaker(r) && r.owned == map[] && r.open == map[MAKER := {}]
    requires r.engine.books == map[SYMBOL := Book(SYMBOL, [], [Offer().(status := Open)], 1)] && r.engine.orders.Keys == {1}
    requires |r.queue| == 1 && r.queue[0].BookUpdateEvent? && r.queue[0].symbol == SYMBOL
    modifies r
    ensures r.Valid() && OneMaker(r) && r.owned == map[id := Owner(MAKER, Buy)]
    ensures r.engine.books == map[SYMBOL := Book(SYMBOL, [Half(id)], [], 2)]
    ensures id != 1 && |r.queue| == 2 && r.queue[0] == TradeEvent(Done(id))
  {
    hide StrategyRuntime.Valid, AllAnswered, PlacedOne, Quotes, Signed, Answering, AcceptedAll, Reacted, BookedBy;
    ghost var event, f := r.queue[0], r.Now().(queue := []);
    assert r.queue[1..] == [];
    Quoter(event);
    NothingBooked(r.strategies, r.owned, event);
    ghost var responses := r.ProcessEvent(Answering);
    BidsOnUpdate(OneQuoter(), map[MAKER := {}], event, responses, f, r.Now());
    GoesOn(event, map[], OneQuoter(), r.strategies, responses);
    id :| PlacedOne(0, MAKER, Bid(0), id, f, r.Now());
    AfterBid(f, id, r.Now());
  }

  /** The trade reaches the strategy. */
  method Evening(r: StrategyRuntime, ghost id: OrderId)
    requires r.Valid() && OneMaker(r) && r.owned == map[id := Owner(MAKER, Buy)]
    requires id != 1 && |r.queue| == 2 && r.queue[0] == TradeEvent(Done(id))
    modifies r
    ensures r.Valid() && r.strategies == map[MAKER := Strategy(SYMBOL, true, true, true, 1)]
    ensures r.owned == old(r.owned) && r.engine == old(r.engine) && r.capacity == 0
  {
    hide StrategyRuntime.Valid, AllAnswered, Quotes, Answering, AcceptedAll, Reacted, BookedBy, ClosedBy;
    ghost var event, f := r.queue[0], r.Now().(queue := r.queue[1..]);
    ghost var strategies, open := BookedBy(r.strategies, r.owned, event), ClosedBy(r.open, r.owned, r.engine.orders, event);
    Quoter(event);
    OneBought(id);
    ghost var responses := r.ProcessEvent(Answering);
    SilentOnTrade(strategies, open, event, responses, f, r.Now());
    GoesOn(event, map[id := Owner(MAKER, Buy)], OneQuoter(), r.strategies, responses);
  }

  lemma {:induction false} OneBought(id: OrderId)
    requires id != 1
    ensures BookedBy(OneQuoter(), map[id := Owner(MAKER, Buy)], TradeEvent(Done(id))) == map[MAKER := Strategy(SYMBOL, true, true, true, 1)]
  {
  }

  /** A strategy bids at another participant's offer, trades, and is left with one bought and a bid that rests. */
  method Day() returns (r: StrategyRuntime, ghost id: OrderId)
    ensures r.Valid() && r.dropped == 0 && r.strategies == map[MAKER := Strategy(SYMBOL, true, true, true, 1)]
    ensures r.owned == map[id := Owner(MAKER, Buy)] && SYMBOL in r.engine.books && r.engine.books[SYMBOL].bids == [Half(id)]
  {
    hide StrategyRuntime.Valid;
    r := Morning();
    Noon(r);
    id := Afternoon(r);
    Evening(r, id);
    NothingDropped(r);
  }
}
