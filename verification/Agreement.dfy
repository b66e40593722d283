/** When the Python and the C++ book do the same thing. */
module Agreement {
  import opened Domain
  import opened BookSpec
  import opened BookRuns
  import opened MatchTheory

  /** A market order carries no price: what a caller has to see to. */
  predicate Unpriced(order: OrderRec) {
    order.kind.Market? ==> order.price.None?
  }

  /** One operation, with everything it reports. */
  function Report1(backend: Backend, s: State, op: Op): (Option<Report>, Option<OrderRec>) {
    match op
    case SubmitOp(order) => (Some(Submit(s.book, order, backend.Bound(order)).1), None)
    case CancelOp(id) => (None, Cancel(s.book, id).1)
  }

  function Reports(backend: Backend, s: State, ops: seq<Op>): seq<(Option<Report>, Option<OrderRec>)>
    decreases |ops|
  {
    if ops == [] then [] else [Report1(backend, s, ops[0])] + Reports(backend, Step(backend, s, ops[0]), ops[1..])
  }

  ghost predicate AllUnpriced(ops: seq<Op>) {
    forall i :: 0 <= i < |ops| && ops[i].SubmitOp? ==> Unpriced(ops[i].order)
  }

  /** From the same book, a run without priced market orders gives the same reports and the same books. */
  lemma {:induction false} RunsAgree(s: State, ops: seq<Op>)
    requires Admissible(Python, s, ops) && AllUnpriced(ops)
    ensures Admissible(Native, s, ops)
    ensures After(Python, s, ops) == After(Native, s, ops)
    ensures Reports(Python, s, ops) == Reports(Native, s, ops)
    decreases |ops|
  {
    if ops != [] {
      var op := ops[0];
      assert op.SubmitOp? ==> Python.Bound(op.order) == Native.Bound(op.order);
      hide Submit, Cancel;
      RunsAgree(Step(Python, s, op), ops[1..]);
    }
  }

  /** The two implementations do the same with `order` in every book reachable without it. */
  ghost predicate AlwaysAgree(order: OrderRec) {
    forall ops :: Admissible(Python, Empty(order.symbol), ops) && AllUnpriced(ops) && Fresh(After(Python, Empty(order.symbol), ops), order) ==>
      var s := After(Python, Empty(order.symbol), ops);
      Submit(s.book, order, Python.Bound(order)) == Submit(s.book, order, Native.Bound(order))
  }

  /** A resting order just out of the reach of a market order's price. */
  function JustOutOfReach(order: OrderRec): OrderRec
    requires order.price.Some?
  {
    var price := if order.side.Buy? then order.price.value + 1.0 else order.price.value - 1.0;
    OrderRec(order.id + 1, order.symbol, order.side.Opposite(), Limit, Some(price), 1, GTC, 0, Pending)
  }

  /** A market order that carries a price meets a book where only the C++ one trades. */
  lemma {:induction false} PricedMarketsDiffer(order: OrderRec)
    requires order.kind.Market? && order.price.Some? && order.quantity > 0 && order.filled == 0 && order.status == Pending
    ensures var ops := [SubmitOp(JustOutOfReach(order))];
            var s := After(Python, Empty(order.symbol), ops);
            && Admissible(Python, Empty(order.symbol), ops) && AllUnpriced(ops) && Fresh(s, order)
            && Submit(s.book, order, Python.Bound(order)).1.trades == []
            && Submit(s.book, order, Native.Bound(order)).1.trades != []
  {
    var maker := JustOutOfReach(order);
    var s0 := Empty(order.symbol);
    var s := Step(Python, s0, SubmitOp(maker));
    var rested := maker.(status := Open);
    assert Match(maker, maker.price, []) == Sweep(maker, [], [], []);
    assert Insert([], rested) == [rested];
    assert s.book.Queue(order.side.Opposite()) == [rested];
    hide Insert;
    AfterOne(Python, s0, SubmitOp(maker));
    var ops := [SubmitOp(maker)];
    assert !Crosses(order.side, order.price, rested.Px());
    assert Match(order, order.price, [rested]) == Sweep(order, [], [rested], []);
    assert Match(order, None, [rested]).trades != [];
  }

  lemma {:induction false} AfterOne(backend: Backend, s: State, op: Op)
    ensures After(backend, s, [op]) == Step(backend, s, op)
    ensures Admissible(backend, s, [op]) <==> Accepts(s, op)
  {
    assert [op][1..] == [];
  }

  /** Exactly the orders that are not priced market orders are safe. */
  lemma {:induction false} AgreeIffUnpriced(order: OrderRec)
    requires order.quantity > 0 && order.filled == 0 && order.status == Pending && (order.kind.Limit? ==> order.price.Some?)
    ensures AlwaysAgree(order) <==> Unpriced(order)
  {
    hide Submit;
    if Unpriced(order) {
      assert Python.Bound(order) == Native.Bound(order);
    } else {
      PricedMarketsDiffer(order);
      var ops := [SubmitOp(JustOutOfReach(order))];
      var s := After(Python, Empty(order.symbol), ops);
      assert Submit(s.book, order, Python.Bound(order)) != Submit(s.book, order, Native.Bound(order));
    }
  }

  // ---------- one order, one queue ----------

  /**
   Whether the two crossing rules let an order trade alike with this queue: it is not
   a market order with a price, or what rests within that price fills it, or
   everything that rests is within that price.
   */
  predicate Harmless(order: OrderRec, queue: seq<OrderRec>) {
    || Unpriced(order)
    || order.Remaining() <= CrossingVolume(order.side, order.price, queue)
    || CrossingVolume(order.side, order.price, queue) == Volume(queue)
  }

  lemma {:induction false} CrossingAll(side: Side, queue: seq<OrderRec>)
    ensures CrossingVolume(side, None, queue) == Volume(queue)
  {
    if queue != [] {
      CrossingAll(side, queue[1..]);
    }
  }

  lemma {:induction false} CrossingPart(side: Side, bound: Option<Price>, queue: seq<OrderRec>)
    requires Positive(queue)
    ensures 0 <= CrossingVolume(side, bound, queue) <= Volume(queue) && (queue != [] ==> Volume(queue) > 0)
  {
    if queue != [] {
      CrossingPart(side, bound, queue[1..]);
    }
  }

  lemma {:induction false} SweepsAlike(taker: OrderRec, price: Price, queue: seq<OrderRec>)
    requires Positive(queue) && Sorted(taker.side.Opposite(), queue) && taker.Remaining() >= 0
    requires taker.Remaining() <= CrossingVolume(taker.side, Some(price), queue) || CrossingVolume(taker.side, Some(price), queue) == Volume(queue)
    ensures Match(taker, Some(price), queue) == Match(taker, None, queue)
    decreases |queue|
  {
    CrossingPart(taker.side, Some(price), queue);
    if queue != [] && taker.Remaining() > 0 {
      if !Crosses(taker.side, Some(price), queue[0].Px()) {
        NoneBehind(taker.side, Some(price), queue);
      } else if taker.Remaining() >= queue[0].Remaining() {
        SortedTail(taker.side.Opposite(), queue);
        SweepsAlike(taker.(filled := taker.filled + queue[0].Remaining()), price, queue[1..]);
      }
    }
  }

  /** On one queue the two rules make the same sweep, or even the same trades, exactly when the order is harmless there. */
  lemma {:induction false} SweepsAgreeIff(order: OrderRec, queue: seq<OrderRec>)
    requires Positive(queue) && Sorted(order.side.Opposite(), queue) && order.Remaining() >= 0 && (order.kind.Limit? ==> order.price.Some?)
    ensures Match(order, Python.Bound(order), queue) == Match(order, Native.Bound(order), queue) <==> Harmless(order, queue)
    ensures Match(order, Python.Bound(order), queue).trades == Match(order, Native.Bound(order), queue).trades <==> Harmless(order, queue)
  {
    hide Match, CrossingVolume, Volume, Positive, Sorted;
    if Unpriced(order) {
      assert Python.Bound(order) == Native.Bound(order);
    } else if Harmless(order, queue) {
      SweepsAlike(order, order.price.value, queue);
    } else {
      TotalIsMinimum(order, Python.Bound(order), queue);
      TotalIsMinimum(order, Native.Bound(order), queue);
      CrossingAll(order.side, queue);
      CrossingPart(order.side, order.price, queue);
    }
  }

  // ---------- 32-bit totals in snapshots ----------

  predicate FitsWord(row: Level) { 0 <= row.quantity < WORD && 0 <= row.count < WORD }

  predicate FitsWords(levels: seq<Level>) {
    forall i :: 0 <= i < |levels| ==> FitsWord(levels[i])
  }

  lemma {:induction false} WrapsToItself(row: Level)
    ensures Wrap(row) == row <==> FitsWord(row)
  {
  }

  /** The C++ rows are the Python rows exactly as long as every total and count fits in 32 bits. */
  lemma {:induction false} RowsAgreeIff(levels: seq<Level>)
    ensures Wrapped(levels) == levels <==> FitsWords(levels)
  {
    var wrapped := Wrapped(levels);
    if wrapped == levels {
      forall i | 0 <= i < |levels|
        ensures FitsWord(levels[i])
      {
        assert wrapped[i] == Wrap(levels[i]);
        WrapsToItself(levels[i]);
      }
    } else if FitsWords(levels) {
      forall i | 0 <= i < |levels|
        ensures wrapped[i] == levels[i]
      {
        assert wrapped[i] == Wrap(levels[i]);
        WrapsToItself(levels[i]);
      }
    }
  }

  /** A snapshot crosses from C++ unchanged exactly as long as its rows and its sequence fit in 32 bits. */
  predicate Fits(s: Snapshot) {
    FitsWords(s.bids) && FitsWords(s.asks) && s.sequence < WORD
  }

  lemma {:induction false} DeliveredIff(s: Snapshot)
    ensures Native.Deliver(s) == s <==> Fits(s)
  {
    hide Wrapped;
    RowsAgreeIff(s.bids);
    RowsAgreeIff(s.asks);
  }
}
