/** The Python side of the C++ backend: cached orders kept in step with the native engine. */
module HalCache {
  import opened Domain
  import opened BookSpec
  import opened BookRuns
  import opened EngineSpec
  import opened EngineRuns
  import NativeLevels
  import PyLevels

  /** What an order is once it has crossed the wire: its symbol is cut at six characters. */
  function Wire(r: OrderRec): OrderRec {
    NativeLevels.Wire(r.(symbol := if |r.symbol| > 6 then r.symbol[..6] else r.symbol))
  }

  /** Python labels the trades with the order's own symbol. */
  function Labelled(trades: seq<Trade>, symbol: Symbol): (ts: seq<Trade>)
    ensures |ts| == |trades| && forall i :: 0 <= i < |ts| ==> ts[i] == trades[i].(symbol := symbol)
  {
    seq(|trades|, i requires 0 <= i < |trades| => trades[i].(symbol := symbol))
  }

  /** The field of the frame holds a 32-bit quantity; anything else cannot be encoded. */
  predicate Encodes(order: OrderRec) { 0 <= order.quantity < WORD }

  /** What the caller of a submission and the event callback see of a native outcome. */
  function AsSeen(out: Outcome, order: OrderRec): Outcome {
    var seen := order.(filled := out.order.filled, status := out.order.status);
    Outcome(seen, Labelled(out.trades, order.symbol), out.resting, out.rejection,
            if out.rejection.Some? then OrderRejected else EventOf(seen, out.trades),
            if out.snapshot.Some? then Some(Framed(out.snapshot.value)) else None)
  }

  /** The book of a symbol as the C++ engine shows it through the frame; a symbol it has no book for shows nothing. */
  function Picture(e: Engine, symbol: Symbol, depth: nat): Option<Snapshot> {
    if symbol in e.books then Some(Native.Deliver(TakeSnapshot(e.books[symbol], depth))) else None
  }

  class CppMatchingHAL {
    /** The native engine, with its history. */
    var native: Engine
    ghost var world: World
    /** Every admitted order, as the rest of the system sees it. */
    var orders: map<OrderId, PyLevels.Order>
    var symbols: seq<Symbol>
    var stats: Stats

    constructor ()
      ensures Valid() && native == EmptyEngine()
    {
      native, world, orders, symbols, stats := EmptyEngine(), Start(), map[], [], NO_STATS;
      StartGood();
    }

    /** A cached order is in the state the native engine has it in. */
    ghost predicate InStep(id: OrderId)
      requires id in orders && id in native.orders
      reads this, orders.Values
    {
      orders[id] in orders.Values && Wire(orders[id].Rec()) == native.orders[id]
    }

    ghost predicate Filed()
      reads this
    {
      && Good(world) && world.engine == native && stats == native.stats
      && (forall symbol :: symbol in symbols <==> symbol in native.books)
      && orders.Keys == native.orders.Keys && (forall id :: id in orders ==> orders[id].id == id)
    }

    ghost predicate Valid()
      reads this, orders.Values
    {
      Filed() && forall id :: id in orders ==> InStep(id)
    }

    /** Bring one cached order up to date, if it is cached and the engine knows it. */
    method Refresh(id: OrderId)
      requires Filed() && (id in orders ==> Wire(orders[id].Rec()) == native.orders[id].(filled := orders[id].filled, status := orders[id].status))
      modifies if id in orders then {orders[id]} else {}
      ensures id in orders ==> InStep(id)
    {
      if id in orders && id in native.orders {
        var raw := native.orders[id];
        orders[id].status := raw.status;
        orders[id].filled := raw.filled;
      }
    }

    /** A cached order and its native twin differ at most in what fills and cancellations change. */
    ghost predicate Twins(id: OrderId)
      requires id in orders && id in native.orders
      reads this, orders.Values
    {
      orders[id] in orders.Values && SameButProgress(Wire(orders[id].Rec()), native.orders[id])
    }

    /** Bring the makers named in the trades up to date. */
    method RefreshMakers(trades: seq<Trade>)
      requires Filed() && forall id :: id in orders ==> Twins(id)
      requires forall id :: id in orders ==> InStep(id) || Names(trades, id)
      modifies orders.Values
      ensures Valid()
    {
      hide Good;
      for i := 0 to |trades|
        invariant Filed() && forall id :: id in orders ==> Twins(id)
        invariant forall id :: id in orders ==> InStep(id) || Names(trades[i..], id)
      {
        var id := trades[i].maker;
        if id in orders {
          assert orders[id] in orders.Values && Twins(id);
        }
        Refresh(id);
        OneLess(trades, i);
      }
    }

    /** Open a native book; a symbol that does not fit the wire is refused. */
    method RegisterSymbol(symbol: Symbol) returns (ok: bool)
      requires Valid()
      modifies this
      ensures Valid() && orders == old(orders) && (ok <==> 1 <= |symbol| <= 6)
      ensures native == EngineSpec.RegisterSymbol(Native, old(native), symbol)
    {
      hide Good;
      ok := 1 <= |symbol| <= 6;
      if ok {
        NextGood(Native, world, Register(symbol));
        native, world := EngineSpec.RegisterSymbol(Native, native, symbol), Next(Native, world, Register(symbol));
        if symbol !in symbols {
          symbols := symbols + [symbol];
        }
      }
    }

    /** One native submission, with the counters copied back. */
    method Deliver(r: OrderRec) returns (out: Outcome)
      requires Filed() && NewOrder(Submission(r))
      modifies `native, `world, `stats
      ensures Good(world) && world.engine == native && stats == native.stats && native.books.Keys == old(native.books.Keys)
      ensures (native, out) == EngineSpec.SubmitOrder(Native, old(native), r)
      ensures Landed(old(native.orders), native.orders, r, out)
    {
      hide Good, EngineSpec.SubmitOrder, Next, Landed;
      var (e, detail) := EngineSpec.SubmitOrder(Native, native, r);
      Lands(world, r);
      native, world := e, Next(Native, world, Submission(r));
      stats := native.stats;
      out := detail;
    }

    /** Copy the native result onto the caller's order; if it was admitted, cache it and refresh its makers. */
    method Adopt(order: PyLevels.Order, out: Outcome, ghost was: map<OrderId, OrderRec>)
      requires Good(world) && world.engine == native && stats == native.stats && (forall symbol :: symbol in symbols <==> symbol in native.books)
      requires Landed(was, native.orders, Wire(order.Rec()), out) && (forall id :: id in orders ==> orders[id] != order && orders[id].id == id)
      requires orders.Keys == was.Keys && forall id :: id in orders ==> Wire(orders[id].Rec()) == was[id]
      modifies `orders, order, orders.Values
      ensures Valid() && order.Rec() == old(order.Rec()).(filled := out.order.filled, status := out.order.status)
      ensures Wire(order.Rec()) == out.order
      ensures orders == if out.rejection.None? then old(orders)[order.id := order] else old(orders)
    {
      hide Good, Labelled;
      ghost var r := order.Rec();
      order.status := out.order.status;
      order.filled := out.order.filled;
      WireFacts(r);
      if out.rejection.None? {
        orders := orders[order.id := order];
        RefreshMakers(out.trades);
      }
    }

    /**
     Submit through the native engine and project its results on the caller's order
     and the cache. A quantity that does not fit its field is not submitted at all.
     */
    method SubmitOrder(order: PyLevels.Order) returns (reply: Option<Outcome>)
      requires Valid() && (forall id :: id in orders ==> orders[id] != order)
      requires order.filled == 0 && order.status == Pending
      modifies this, order, orders.Values
      ensures Valid() && (reply.Some? <==> 0 <= order.quantity < 0x1_0000_0000)
      ensures reply.None? ==> native == old(native) && orders == old(orders) && order.Rec() == old(order.Rec())
      ensures var (e, out) := EngineSpec.SubmitOrder(Native, old(native), Wire(old(order.Rec())));
              reply.Some? ==>
                && native == e && Wire(order.Rec()) == out.order
                && reply == Some(AsSeen(out, old(order.Rec()))) && reply.value.order == order.Rec()
                && orders == if out.rejection.None? then old(orders)[order.id := order] else old(orders)
    {
      hide Good, EngineSpec.SubmitOrder, Labelled, EventOf, Framed, Wire, Landed;
      if !(0 <= order.quantity < WORD) {
        return None;
      }
      ghost var was := native.orders;
      WireFacts(order.Rec());
      var out := Deliver(Wire(order.Rec()));
      Adopt(order, out, was);
      var trades := Labelled(out.trades, order.symbol);
      var event := if out.rejection.Some? then OrderRejected else EventOf(order.Rec(), trades);
      EventSameTrades(order.Rec(), out.trades, order.symbol);
      var snapshot := if out.snapshot.Some? then Some(Framed(out.snapshot.value)) else None;
      reply := Some(Outcome(order.Rec(), trades, out.resting, out.rejection, event, snapshot));
    }

    /**
     Cancel through the native engine; the cached order follows, and the event shows
     the book of its symbol. Null when nothing with that id rests.
     */
    method CancelOrder(id: OrderId) returns (cancelled: PyLevels.Order?, snapshot: Option<Snapshot>)
      requires Valid()
      modifies this, orders.Values
      ensures Valid() && orders == old(orders)
      ensures var (e, r) := EngineSpec.CancelOrder(old(native), id);
              && native == e && (cancelled == null <==> r.None?)
              && (cancelled != null ==> id in orders && cancelled == orders[id] && Wire(cancelled.Rec()) == r.value)
      ensures snapshot == if cancelled == null then None else Picture(native, cancelled.symbol, DEPTH)
    {
      hide Good, EngineSpec.CancelOrder, Next, EngineSpec.Refresh, Picture;
      ghost var w := world;
      var (e, raw) := EngineSpec.CancelOrder(native, id);
      CancelGood(w, id);
      CancelChanges(w, id);
      BooksStay(native, id);
      native, world := e, Next(Python, world, Cancellation(id));
      stats := native.stats;
      if raw.None? {
        return null, None;
      }
      cancelled := orders[id];
      cancelled.status := raw.value.status;
      cancelled.filled := raw.value.filled;
      snapshot := Picture(native, cancelled.symbol, DEPTH);
    }

    /** Look an order up in the native engine; the cached order, refreshed, is what the caller gets. */
    method GetOrder(id: OrderId) returns (order: PyLevels.Order?)
      requires Valid()
      modifies orders.Values
      ensures Valid() && (order == null <==> id !in native.orders)
      ensures order != null ==> id in orders && order == orders[id] && order.Rec() == old(orders[id].Rec()) && Wire(order.Rec()) == native.orders[id]
    {
      hide Good;
      if id !in native.orders {
        return null;
      }
      var raw := native.orders[id];
      order := orders[id];
      assert InStep(id);
      order.status := raw.status;
      order.filled := raw.filled;
    }
  }

  /** What a submission may do to the orders of the engine. */
  ghost predicate Landed(was: map<OrderId, OrderRec>, now: map<OrderId, OrderRec>, r: OrderRec, out: Outcome) {
    && SameButProgress(out.order, r)
    && (out.rejection.Some? ==> now == was && out.trades == [])
    && (out.rejection.None? ==> r.id !in was && now.Keys == was.Keys + {r.id} && now[r.id] == out.order)
    && (forall id :: id in was ==> id in now && SameButProgress(was[id], now[id]) && (now[id] == was[id] || Names(out.trades, id)))
  }

  lemma {:induction false} Lands(w: World, r: OrderRec)
    requires Good(w) && NewOrder(Submission(r))
    ensures var (e, out) := EngineSpec.SubmitOrder(Native, w.engine, r);
            && Good(Next(Native, w, Submission(r))) && Next(Native, w, Submission(r)).engine == e
            && Landed(w.engine.orders, e.orders, r, out) && e.books.Keys == w.engine.books.Keys
  {
    hide Good, EngineSpec.SubmitOrder, Next, SameButProgress, Names;
    SubmissionIs(Native, w, r);
    NextGood(Native, w, Submission(r));
    Progress(Native, w, r);
    SubmissionBooks(w.engine, r);
  }

  lemma {:induction false} SubmissionBooks(e: Engine, r: OrderRec)
    ensures EngineSpec.SubmitOrder(Native, e, r).0.books.Keys == e.books.Keys
  {
    hide BookSpec.Submit, Refresh, Count, BookSpec.TakeSnapshot, EventOf;
  }

  lemma {:induction false} BooksStay(e: Engine, id: OrderId)
    ensures EngineSpec.CancelOrder(e, id).0.books.Keys == e.books.Keys
  {
    hide BookSpec.Cancel, Refresh;
  }

  lemma {:induction false} WireFacts(r: OrderRec)
    ensures var w := Wire(r); w.id == r.id && w.filled == r.filled && w.status == r.status && w.quantity == r.quantity
    ensures forall filled: int, status: Status :: Wire(r.(filled := filled, status := status)) == Wire(r).(filled := filled, status := status)
  {
  }

  lemma {:induction false} EventSameTrades(order: OrderRec, trades: seq<Trade>, symbol: Symbol)
    ensures EventOf(order, Labelled(trades, symbol)) == EventOf(order, trades)
  {
  }

  lemma {:induction false} OneLess(trades: seq<Trade>, i: nat)
    requires i < |trades|
    ensures forall id :: Names(trades[i..], id) && id != trades[i].maker ==> Names(trades[i + 1..], id)
  {
    forall id | Names(trades[i..], id) && id != trades[i].maker
      ensures Names(trades[i + 1..], id)
    {
      var j :| 0 <= j < |trades[i..]| && trades[i..][j].maker == id;
      assert trades[i + 1..][j - 1].maker == id;
    }
  }
}
