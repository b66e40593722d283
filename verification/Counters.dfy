/** What the engine's counters count, over any run of calls. */
module Counters {
  import opened Domain
  import opened BookSpec
  import opened MatchTheory
  import opened BookRuns
  import opened EngineSpec
  import opened EngineRuns
  import opened Reports
  import Conservation

  function Submissions(calls: seq<Call>): nat {
    if calls == [] then 0 else (if calls[0].Submission? then 1 else 0) + Submissions(calls[1..])
  }

  /** The orders that have taken from a book on arrival. */
  ghost function Takers(log: seq<Trade>): set<OrderId> {
    set i | 0 <= i < |log| :: log[i].taker
  }

  /** Whether an order rests, or rested until the last of it was taken. */
  predicate Lasted(orders: map<OrderId, OrderRec>, named: bool, id: OrderId) {
    id in orders && (ShouldRest(orders[id]) || (orders[id].status.Filled? && named))
  }

  /** Whether an order rested until it was cancelled. */
  predicate Quit(orders: map<OrderId, OrderRec>, id: OrderId) {
    id in orders && orders[id].status.Cancelled? && Stays(orders[id])
  }

  ghost function Lasting(w: World): set<OrderId> {
    set id | id in w.engine.orders && Lasted(w.engine.orders, Names(w.log, id), id)
  }

  ghost function Withdrawn(w: World): set<OrderId> {
    set id | id in w.engine.orders && Quit(w.engine.orders, id)
  }

  /** The orders that rest. */
  ghost function RestingNow(w: World): set<OrderId> {
    set id | id in w.engine.orders && ShouldRest(w.engine.orders[id])
  }

  /** The orders that rested until the last of them was taken: filled, and maker of some trade. */
  ghost function RestedOut(w: World): set<OrderId> {
    set id | id in w.engine.orders && w.engine.orders[id].status.Filled? && Names(w.log, id)
  }

  ghost predicate Counted(w: World, submissions: nat) {
    var stats := w.engine.stats;
    && stats.received == submissions && stats.received - stats.rejected == |w.admitted|
    && stats.matched == |Takers(w.log)| && stats.cancelled == |Withdrawn(w)|
    && stats.resting == |Lasting(w)|
  }

  // ---------- one admission ----------

  lemma {:induction false} AdmissionStats(backend: Backend, w: World, order: OrderRec)
    requires Admits(w, order)
    ensures var m := Match(order, backend.Bound(order), w.engine.books[order.symbol].Queue(order.side.Opposite()));
            var was, now := w.engine.stats, Next(backend, w, Submission(order)).engine.stats;
            && now.received == was.received + 1 && now.rejected == was.rejected && now.cancelled == was.cancelled
            && now.matched == was.matched + (if m.trades != [] then 1 else 0)
            && now.resting == was.resting + (if Rests(m.taker) then 1 else 0)
  {
    hide Match, Settle, Insert, Refresh, Backend.Bound;
  }

  lemma {:induction false} MoreTakers(log: seq<Trade>, trades: seq<Trade>, id: OrderId)
    requires forall i :: 0 <= i < |trades| ==> trades[i].taker == id
    ensures Takers(log + trades) == Takers(log) + (if trades != [] then {id} else {})
  {
    var all := log + trades;
    forall x | x in Takers(log) + (if trades != [] then {id} else {})
      ensures x in Takers(all)
    {
      if x in Takers(log) {
        var i :| 0 <= i < |log| && log[i].taker == x;
        assert all[i].taker == x;
      } else {
        assert all[|log|].taker == x;
      }
    }
  }

  lemma {:induction false} NamesMore(log: seq<Trade>, trades: seq<Trade>, id: OrderId)
    ensures Names(log + trades, id) <==> Names(log, id) || Names(trades, id)
  {
    var all := log + trades;
    if Names(log, id) {
      var i :| 0 <= i < |log| && log[i].maker == id;
      assert all[i].maker == id;
    } else if Names(trades, id) {
      var i :| 0 <= i < |trades| && trades[i].maker == id;
      assert all[|log| + i].maker == id;
    }
  }

  /** A sweep of makers that rest changes none of this about any order but the newcomer. */
  lemma {:induction false} SweepLasts(orders: map<OrderId, OrderRec>, orders': map<OrderId, OrderRec>, taker: OrderRec, final: OrderRec, queue: seq<OrderRec>,
                                      m: Sweep, side: Side, symbol: Symbol, log: seq<Trade>, id: OrderId)
    requires Updated(orders, orders', final, queue, m.trades) && AllResting(side, symbol, queue) && ChangesAre(taker, queue, m) && id in orders
    ensures Lasted(orders', Names(log + m.trades, id), id) <==> Lasted(orders, Names(log, id), id)
    ensures Quit(orders', id) <==> Quit(orders, id)
  {
    NamesMore(log, m.trades, id);
    if id in Ids(queue) {
      var i :| 0 <= i < |queue| && queue[i].id == id;
      assert Resting(queue[i], side, symbol);
      if i < |m.trades| {
        assert m.trades[i].maker == id;
        assert orders'[id] == AfterFill(queue[i], m.trades[i].quantity);
      } else {
        assert orders'[id] == queue[i];
      }
    } else {
      NotNamed(taker, queue, m, id);
    }
  }

  lemma {:induction false} NotNamed(taker: OrderRec, queue: seq<OrderRec>, m: Sweep, id: OrderId)
    requires ChangesAre(taker, queue, m) && id !in Ids(queue)
    ensures !Names(m.trades, id)
  {
    forall i | 0 <= i < |m.trades|
      ensures m.trades[i].maker != id
    {
      assert queue[i].id in Ids(queue);
    }
  }

  lemma {:induction false} Unknown(w: World, id: OrderId)
    requires Good(w) && id !in w.engine.orders
    ensures id !in Takers(w.log) && !Names(w.log, id)
  {
    OrdersSane(w);
    hide Good;
  }

  lemma {:induction false} NewcomerLasts(w: World, w': World, final: OrderRec, queue: seq<OrderRec>, m: Sweep, taker: OrderRec)
    requires Good(w) && Updated(w.engine.orders, w'.engine.orders, final, queue, m.trades) && ChangesAre(taker, queue, m)
    requires w'.log == w.log + m.trades && StatusTells(final, false)
    ensures final.id !in Takers(w.log) && !Names(w'.log, final.id)
    ensures Lasted(w'.engine.orders, Names(w'.log, final.id), final.id) <==> ShouldRest(final)
    ensures !Quit(w'.engine.orders, final.id)
  {
    Unknown(w, final.id);
    hide Good;
    NamesMore(w.log, m.trades, final.id);
    assert final.id !in Ids(queue);
    NotNamed(taker, queue, m, final.id);
  }

  lemma {:induction false} LastingGrows(w: World, w': World, id: OrderId, rests: bool)
    requires id !in w.engine.orders && w'.engine.orders.Keys == w.engine.orders.Keys + {id}
    requires forall x :: x in w.engine.orders ==> (Lasted(w'.engine.orders, Names(w'.log, x), x) <==> Lasted(w.engine.orders, Names(w.log, x), x))
    requires Lasted(w'.engine.orders, Names(w'.log, id), id) <==> rests
    ensures Lasting(w') == Lasting(w) + (if rests then {id} else {}) && id !in Lasting(w)
  {
    hide Names, Lasted;
    forall x
      ensures x in Lasting(w') <==> x in Lasting(w) + (if rests then {id} else {})
    {
    }
  }

  lemma {:induction false} WithdrawnStays(w: World, w': World, id: OrderId)
    requires id !in w.engine.orders && w'.engine.orders.Keys == w.engine.orders.Keys + {id}
    requires forall x :: x in w.engine.orders ==> (Quit(w'.engine.orders, x) <==> Quit(w.engine.orders, x))
    requires !Quit(w'.engine.orders, id)
    ensures Withdrawn(w') == Withdrawn(w)
  {
    hide Quit;
    forall x
      ensures x in Withdrawn(w') <==> x in Withdrawn(w)
    {
    }
  }

  /** What an admission does to the orders that are counted. */
  lemma {:induction false} AdmissionSets(backend: Backend, w: World, order: OrderRec)
    requires Good(w) && Admits(w, order)
    ensures var m := Match(order, backend.Bound(order), w.engine.books[order.symbol].Queue(order.side.Opposite()));
            var w' := Next(backend, w, Submission(order));
            && Takers(w'.log) == Takers(w.log) + (if m.trades != [] then {order.id} else {}) && order.id !in Takers(w.log)
            && Lasting(w') == Lasting(w) + (if Rests(m.taker) then {order.id} else {}) && order.id !in Lasting(w)
            && Withdrawn(w') == Withdrawn(w) && w'.admitted == w.admitted + [order.id]
  {
    var queue := w.engine.books[order.symbol].Queue(order.side.Opposite());
    var m := Match(order, backend.Bound(order), queue);
    var final, w' := Settle(m.taker), Next(backend, w, Submission(order));
    hide Good, Next, Match, Settle, Backend.Bound, StatusTells, Updated, AllResting, Positive, ChangesAre, Rests, ShouldRest, Takers, Lasting, Withdrawn,
      Lasted, Quit, Names;
    Admission(backend, w, order);
    FinalTells(order, backend.Bound(order), queue);
    UpdatedKeys(w.engine.orders, w'.engine.orders, final, queue, m.trades);
    SweepTaker(order, queue, m);
    MoreTakers(w.log, m.trades, order.id);
    NewcomerLasts(w, w', final, queue, m, order);
    forall id | id in w.engine.orders
      ensures Lasted(w'.engine.orders, Names(w'.log, id), id) <==> Lasted(w.engine.orders, Names(w.log, id), id)
      ensures Quit(w'.engine.orders, id) <==> Quit(w.engine.orders, id)
    {
      SweepLasts(w.engine.orders, w'.engine.orders, order, final, queue, m, order.side.Opposite(), order.symbol, w.log, id);
    }
    LastingGrows(w, w', order.id, Rests(m.taker));
    WithdrawnStays(w, w', order.id);
  }

  lemma {:induction false} AdmissionCounts(backend: Backend, w: World, order: OrderRec, submissions: nat)
    requires Good(w) && Admits(w, order) && Counted(w, submissions)
    ensures Counted(Next(backend, w, Submission(order)), submissions + 1)
  {
    hide Good, Admits, Next, Match, Backend.Bound, Rests, Takers, Lasting, Withdrawn;
    AdmissionStats(backend, w, order);
    AdmissionSets(backend, w, order);
  }

  lemma {:induction false} SweepTaker(taker: OrderRec, queue: seq<OrderRec>, m: Sweep)
    requires ChangesAre(taker, queue, m)
    ensures forall i :: 0 <= i < |m.trades| ==> m.trades[i].taker == taker.id
  {
  }

  // ---------- the other calls ----------

  lemma {:induction false} WithdrawalStats(w: World, id: OrderId)
    ensures var (e, r) := CancelOrder(w.engine, id);
            && (r.None? ==> e.stats == w.engine.stats)
            && (r.Some? ==> e.stats == w.engine.stats.(cancelled := w.engine.stats.cancelled + 1,
                                                       resting := if w.engine.stats.resting > 1 then w.engine.stats.resting - 1 else 0))
  {
    hide Cancel, Refresh;
  }

  lemma {:induction false} SetsShift(w: World, w': World, id: OrderId)
    requires id in w.engine.orders && ShouldRest(w.engine.orders[id]) && Stays(w.engine.orders[id]) && w'.log == w.log
    requires w'.engine.orders == w.engine.orders[id := AfterCancel(w.engine.orders[id])]
    ensures Lasting(w') == Lasting(w) - {id} && id in Lasting(w)
    ensures Withdrawn(w') == Withdrawn(w) + {id} && id !in Withdrawn(w)
  {
    hide Names;
  }

  lemma {:induction false} WithdrawalCounts(w: World, id: OrderId, submissions: nat, withdrawn: set<OrderId>)
    requires Good(w) && AllTell(w, withdrawn) && Counted(w, submissions)
    ensures Counted(Next(Python, w, Cancellation(id)), submissions)
  {
    hide Good, CancelOrder, StatusTells, ShouldRest, Lasting, Withdrawn, Takers;
    CancelIs(w, id);
    Conservation.CancelWhen(w, id);
    WithdrawalStats(w, id);
    if CancelOrder(w.engine, id).1.Some? {
      CancelTells(w.engine.orders[id], id in withdrawn);
      SetsShift(w, Next(Python, w, Cancellation(id)), id);
    }
  }

  lemma {:induction false} RefusalCounts(backend: Backend, w: World, order: OrderRec, submissions: nat)
    requires Validate(w.engine.books.Keys, w.engine.orders.Keys, order).Some? && Counted(w, submissions)
    ensures Counted(Next(backend, w, Submission(order)), submissions + 1)
  {
    hide Names, Lasted, Quit, Takers;
    var w' := Next(backend, w, Submission(order));
    assert Lasting(w') == Lasting(w) && Withdrawn(w') == Withdrawn(w);
  }

  lemma {:induction false} RegistrationCounts(backend: Backend, w: World, symbol: Symbol, submissions: nat)
    requires Counted(w, submissions)
    ensures Counted(Next(backend, w, Register(symbol)), submissions)
  {
    hide Names, Lasted, Quit, Takers;
    var w' := Next(backend, w, Register(symbol));
    assert Lasting(w') == Lasting(w) && Withdrawn(w') == Withdrawn(w);
  }

  lemma {:induction false} NextCounts(backend: Backend, w: World, call: Call, submissions: nat, withdrawn: set<OrderId>)
    requires Good(w) && NewOrder(call) && AllTell(w, withdrawn) && Counted(w, submissions)
    ensures Counted(Next(backend, w, call), submissions + Submissions([call]))
  {
    hide Good, AllTell, Counted, Next, Validate;
    assert [call][1..] == [];
    match call
    case Register(symbol) =>
      RegistrationCounts(backend, w, symbol, submissions);
    case Cancellation(id) =>
      CancelAnyBackend(backend, w, call);
      WithdrawalCounts(w, id, submissions, withdrawn);
    case Submission(order) =>
      if Validate(w.engine.books.Keys, w.engine.orders.Keys, order).None? {
        AdmissionCounts(backend, w, order, submissions);
      } else {
        RefusalCounts(backend, w, order, submissions);
      }
  }

  lemma {:induction false} RunCounts(backend: Backend, w: World, calls: seq<Call>, submissions: nat, withdrawn: set<OrderId>)
    requires Good(w) && NewOrders(calls) && AllTell(w, withdrawn) && Counted(w, submissions)
    ensures Counted(Played(backend, w, calls), submissions + Submissions(calls))
    decreases |calls|
  {
    hide Good, AllTell, Counted, Next, Withdrawals;
    if calls != [] {
      var w' := Next(backend, w, calls[0]);
      assert [calls[0]][1..] == [];
      NextGood(backend, w, calls[0]);
      NextTells(backend, w, calls[0], withdrawn);
      NextCounts(backend, w, calls[0], submissions, withdrawn);
      RunCounts(backend, w', calls[1..], submissions + Submissions([calls[0]]), withdrawn + Withdrawals(backend, w, [calls[0]]));
    }
  }

  /**
   Along any run: what each counter counts, told from the calls, the order map and the
   trades. The counter of resting orders also counts those that rested until they were
   filled, so it is the number of resting orders exactly as long as there are none.
   */
  lemma {:induction false} CountersTell(backend: Backend, calls: seq<Call>)
    requires NewOrders(calls)
    ensures var w := Played(backend, Start(), calls);
            var stats := w.engine.stats;
            && stats.received == Submissions(calls) && stats.rejected == Submissions(calls) - |w.admitted|
            && stats.matched == |Takers(w.log)| && stats.cancelled == |Withdrawn(w)|
            && stats.resting == |RestingNow(w)| + |RestedOut(w)|
            && (stats.resting == |RestingNow(w)| <==> RestedOut(w) == {})
  {
    StartGood();
    var w := Played(backend, Start(), calls);
    assert Counted(Start(), 0);
    RunCounts(backend, Start(), calls, 0, {});
    LastingIs(w);
    hide Good, Played, RestingNow, RestedOut;
    assert |RestingNow(w) + RestedOut(w)| == |RestingNow(w)| + |RestedOut(w)|;
  }

  lemma {:induction false} LastingIs(w: World)
    ensures Lasting(w) == RestingNow(w) + RestedOut(w) && RestingNow(w) !! RestedOut(w)
  {
    hide Names;
  }
}
