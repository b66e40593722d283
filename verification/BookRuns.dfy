/** What stays true of the abstract book over whole runs of submissions and cancellations. */
module BookRuns {
  import opened Domain
  import opened BookSpec
  import opened MatchTheory

  /** An order as it rests in the book: open or partly filled, with something left. */
  predicate Resting(r: OrderRec, side: Side, symbol: Symbol) {
    && r.side == side && r.symbol == symbol && r.kind.Limit? && r.price.Some? && (r.tif.GTC? || r.tif.GTD?)
    && 0 <= r.filled < r.quantity
    && r.status == (if r.filled == 0 then Open else PartiallyFilled)
  }

  ghost predicate AllResting(side: Side, symbol: Symbol, queue: seq<OrderRec>) {
    forall i :: 0 <= i < |queue| ==> Resting(queue[i], side, symbol)
  }

  ghost predicate DistinctIds(queue: seq<OrderRec>) {
    forall i, j :: 0 <= i < j < |queue| ==> queue[i].id != queue[j].id
  }

  ghost predicate Apart(a: seq<OrderRec>, b: seq<OrderRec>) {
    forall i, j :: 0 <= i < |a| && 0 <= j < |b| ==> a[i].id != b[j].id
  }

  /** `p` on `side` does not meet `q` on the other side. */
  predicate Below(side: Side, p: Price, q: Price) {
    if side.Buy? then p < q else q < p
  }

  ghost predicate Uncrossed(side: Side, own: seq<OrderRec>, opposite: seq<OrderRec>) {
    forall i, j :: 0 <= i < |own| && 0 <= j < |opposite| ==> Below(side, own[i].Px(), opposite[j].Px())
  }

  /** `a` is served before `b`: better price, or same price and earlier arrival. */
  predicate Ahead(side: Side, a: OrderRec, b: OrderRec, arrival: map<OrderId, nat>) {
    || Better(side, a.Px(), b.Px())
    || (a.Px() == b.Px() && a.id in arrival && b.id in arrival && arrival[a.id] < arrival[b.id])
  }

  /** The queue is in service order. */
  ghost predicate InOrder(side: Side, queue: seq<OrderRec>, arrival: map<OrderId, nat>) {
    forall i, j :: 0 <= i < j < |queue| ==> Ahead(side, queue[i], queue[j], arrival)
  }

  /** A book together with the arrival number of every order submitted so far. */
  datatype State = State(book: Book, arrival: map<OrderId, nat>, clock: nat)

  ghost predicate Known(queue: seq<OrderRec>, s: State) {
    forall i :: 0 <= i < |queue| ==> queue[i].id in s.arrival
  }

  ghost predicate Timely(s: State) {
    forall id :: id in s.arrival ==> s.arrival[id] < s.clock
  }

  ghost predicate SideInv(side: Side, queue: seq<OrderRec>, s: State) {
    && AllResting(side, s.book.symbol, queue) && DistinctIds(queue)
    && InOrder(side, queue, s.arrival) && Known(queue, s)
  }

  ghost predicate SidesInv(side: Side, own: seq<OrderRec>, opposite: seq<OrderRec>, s: State) {
    && SideInv(side, own, s) && SideInv(side.Opposite(), opposite, s)
    && Apart(own, opposite) && Uncrossed(side, own, opposite)
  }

  ghost predicate Inv(s: State) {
    SidesInv(Buy, s.book.bids, s.book.asks, s) && Timely(s)
  }

  datatype Op = SubmitOp(order: OrderRec) | CancelOp(id: OrderId)

  /** A fresh order for this book's instrument; a limit order has a price. */
  predicate Fresh(s: State, order: OrderRec) {
    && order.symbol == s.book.symbol && order.filled == 0 && order.status == Pending && order.id !in s.arrival
    && (order.kind.Limit? ==> order.price.Some?)
  }

  predicate Accepts(s: State, op: Op) {
    op.SubmitOp? ==> Fresh(s, op.order)
  }

  function Step(backend: Backend, s: State, op: Op): State {
    match op
    case SubmitOp(order) =>
      State(Submit(s.book, order, backend.Bound(order)).0, s.arrival[order.id := s.clock], s.clock + 1)
    case CancelOp(id) =>
      s.(book := Cancel(s.book, id).0)
  }

  predicate Admissible(backend: Backend, s: State, ops: seq<Op>)
    decreases |ops|
  {
    ops == [] || (Accepts(s, ops[0]) && Admissible(backend, Step(backend, s, ops[0]), ops[1..]))
  }

  function After(backend: Backend, s: State, ops: seq<Op>): State
    decreases |ops|
  {
    if ops == [] then s else After(backend, Step(backend, s, ops[0]), ops[1..])
  }

  function Empty(symbol: Symbol): State { State(Book(symbol, [], [], 0), map[], 0) }

  // ---------- one submission keeps the invariant ----------

  lemma {:induction false} RestingPositive(side: Side, symbol: Symbol, queue: seq<OrderRec>)
    requires AllResting(side, symbol, queue)
    ensures Positive(queue)
  {
  }

  lemma {:induction false} OrderSorts(side: Side, queue: seq<OrderRec>, arrival: map<OrderId, nat>)
    requires InOrder(side, queue, arrival)
    ensures Sorted(side, queue)
  {
  }

  /** What is left of the opposite queue, order by order. */
  lemma {:induction false} RestAt(taker: OrderRec, bound: Option<Price>, queue: seq<OrderRec>, side: Side, symbol: Symbol)
    requires AllResting(side, symbol, queue)
    ensures var s := Match(taker, bound, queue);
            && |s.rest| + |s.done| == |queue|
            && AllResting(side, symbol, s.rest)
            && forall i :: 0 <= i < |s.rest| ==> s.rest[i].id == queue[|s.done| + i].id && s.rest[i].Px() == queue[|s.done| + i].Px()
  {
    RestingPositive(side, symbol, queue);
    MatchIsSweep(taker, bound, queue);
    var s := Match(taker, bound, queue);
    hide Match;
    var n := |s.done|;
    forall i | 0 <= i < |s.rest|
      ensures s.rest[i].id == queue[n + i].id && s.rest[i].Px() == queue[n + i].Px() && Resting(s.rest[i], side, symbol)
    {
      assert Resting(queue[n + i], side, symbol);
      if i > 0 || |s.trades| == n {
        assert s.rest[i] == queue[n + i];
      } else {
        assert s.rest[0] == AfterFill(queue[n], s.trades[n].quantity);
      }
    }
  }

  /** Matching leaves its side in order. */
  lemma {:induction false} MatchKeeps(taker: OrderRec, bound: Option<Price>, queue: seq<OrderRec>, side: Side, s: State)
    requires SideInv(side, queue, s)
    ensures SideInv(side, Match(taker, bound, queue).rest, s)
  {
    RestAt(taker, bound, queue, side, s.book.symbol);
    hide Match;
  }

  lemma {:induction false} MatchApart(taker: OrderRec, bound: Option<Price>, queue: seq<OrderRec>, own: seq<OrderRec>, side: Side, symbol: Symbol)
    requires AllResting(side.Opposite(), symbol, queue) && Apart(own, queue) && Uncrossed(side, own, queue)
    ensures Apart(own, Match(taker, bound, queue).rest) && Uncrossed(side, own, Match(taker, bound, queue).rest)
  {
    RestAt(taker, bound, queue, side.Opposite(), symbol);
    hide Match;
  }

  lemma {:induction false} RankSplits(queue: seq<OrderRec>, side: Side, price: Price, arrival: map<OrderId, nat>)
    requires InOrder(side, queue, arrival)
    ensures var k := Rank(queue, side, price);
            && (forall i :: 0 <= i < k ==> AtLeastAsGood(side, queue[i].Px(), price))
            && (forall i :: k <= i < |queue| ==> Better(side, price, queue[i].Px()))
  {
    if queue != [] && AtLeastAsGood(side, queue[0].Px(), price) {
      RankSplits(queue[1..], side, price, arrival);
      var k := Rank(queue, side, price);
      assert forall i :: 1 <= i < |queue| ==> queue[i] == queue[1..][i - 1];
    }
  }

  lemma {:induction false} InsertAt(queue: seq<OrderRec>, order: OrderRec)
    ensures var k, q := Rank(queue, order.side, order.Px()), Insert(queue, order);
            && |q| == |queue| + 1 && q[k] == order
            && (forall i :: 0 <= i < k ==> q[i] == queue[i])
            && (forall i :: k <= i < |queue| ==> q[i + 1] == queue[i])
  {
    hide Rank;
    var k := Rank(queue, order.side, order.Px());
    Wedge(queue[..k], order, queue[k..]);
    assert queue == queue[..k] + queue[k..];
  }

  lemma {:induction false} Wedge<T>(front: seq<T>, x: T, back: seq<T>)
    ensures var was, q := front + back, front + [x] + back;
            && q[|front|] == x && (forall i :: 0 <= i < |front| ==> q[i] == was[i])
            && (forall i :: |front| <= i < |was| ==> q[i + 1] == was[i])
  {
  }

  /** A newcomer takes the place its price and arrival give it. */
  lemma {:induction false} InsertInOrder(side: Side, queue: seq<OrderRec>, order: OrderRec, arrival: map<OrderId, nat>)
    requires InOrder(side, queue, arrival) && order.side == side && order.id in arrival
    requires forall i :: 0 <= i < |queue| ==> queue[i].id in arrival && arrival[queue[i].id] < arrival[order.id]
    ensures InOrder(side, Insert(queue, order), arrival)
  {
    RankSplits(queue, side, order.Px(), arrival);
    InsertAt(queue, order);
    var k, q := Rank(queue, side, order.Px()), Insert(queue, order);
    hide Insert;
    forall i, j | 0 <= i < j < |q|
      ensures Ahead(side, q[i], q[j], arrival)
    {
      assert i > k ==> q[i] == queue[i - 1];
      assert j > k ==> q[j] == queue[j - 1];
    }
  }

  /** Every order of the grown queue is the newcomer or was there before. */
  lemma {:induction false} InsertedFrom(queue: seq<OrderRec>, order: OrderRec)
    ensures forall i :: 0 <= i < |Insert(queue, order)| ==> Insert(queue, order)[i] == order || Insert(queue, order)[i] in queue
  {
  }

  lemma {:induction false} InsertDistinct(queue: seq<OrderRec>, order: OrderRec)
    requires DistinctIds(queue) && forall i :: 0 <= i < |queue| ==> queue[i].id != order.id
    ensures DistinctIds(Insert(queue, order))
  {
    InsertAt(queue, order);
    var k, q := Rank(queue, order.side, order.Px()), Insert(queue, order);
    hide Insert;
    forall i, j | 0 <= i < j < |q|
      ensures q[i].id != q[j].id
    {
      assert i > k ==> q[i] == queue[i - 1];
      assert j > k ==> q[j] == queue[j - 1];
    }
  }

  /** Time passing and new arrivals do not disturb a side. */
  lemma {:induction false} LaterSide(side: Side, queue: seq<OrderRec>, s: State, s': State)
    requires SideInv(side, queue, s) && s'.book.symbol == s.book.symbol
    requires forall id :: id in s.arrival ==> id in s'.arrival && s'.arrival[id] == s.arrival[id]
    ensures SideInv(side, queue, s')
  {
  }

  lemma {:induction false} InsertKeeps(side: Side, queue: seq<OrderRec>, order: OrderRec, s: State)
    requires SideInv(side, queue, s) && Resting(order, side, s.book.symbol) && order.id in s.arrival
    requires forall i :: 0 <= i < |queue| ==> queue[i].id != order.id && s.arrival[queue[i].id] < s.arrival[order.id]
    ensures SideInv(side, Insert(queue, order), s)
  {
    InsertInOrder(side, queue, order, s.arrival);
    InsertDistinct(queue, order);
    InsertedFrom(queue, order);
    hide Insert, InOrder, DistinctIds;
  }

  /** An order that still wants more, after matching, has nothing left to match. */
  lemma {:induction false} MatchEnds(taker: OrderRec, bound: Option<Price>, queue: seq<OrderRec>)
    requires Positive(queue) && Match(taker, bound, queue).taker.Remaining() > 0
    ensures var s := Match(taker, bound, queue);
            s.rest != [] ==> !Crosses(taker.side, bound, s.rest[0].Px())
    ensures Match(taker, bound, queue).taker == taker.(filled := Match(taker, bound, queue).taker.filled)
  {
    MatchIsSweep(taker, bound, queue);
  }

  /** A residual that rests does not cross what matching left. */
  lemma {:induction false} ResidualUncrossed(taker: OrderRec, bound: Option<Price>, queue: seq<OrderRec>, side: Side, s: State)
    requires SideInv(side.Opposite(), queue, s) && taker.side == side && bound == Some(taker.Px())
    requires Match(taker, bound, queue).taker.Remaining() > 0
    ensures forall i :: 0 <= i < |Match(taker, bound, queue).rest| ==> Below(side, taker.Px(), Match(taker, bound, queue).rest[i].Px())
  {
    RestingPositive(side.Opposite(), s.book.symbol, queue);
    MatchEnds(taker, bound, queue);
    MatchKeeps(taker, bound, queue, side.Opposite(), s);
    var rest := Match(taker, bound, queue).rest;
    hide Match;
    OrderSorts(side.Opposite(), rest, s.arrival);
  }

  /** A residual that rests is an order as the book holds them. */
  lemma {:induction false} ResidualRests(taker: OrderRec, bound: Option<Price>, queue: seq<OrderRec>)
    requires Positive(queue) && taker.filled == 0 && taker.status == Pending && (taker.kind.Limit? ==> taker.price.Some?)
    requires Rests(Match(taker, bound, queue).taker)
    ensures var t := Match(taker, bound, queue).taker;
            Resting(Settle(t), taker.side, taker.symbol) && Settle(t) == taker.(filled := t.filled, status := Settle(t).status)
  {
    MatchIsSweep(taker, bound, queue);
    var s := Match(taker, bound, queue);
    TradesPositive(taker, queue, s);
    TotalPositive(s.trades);
  }

  lemma {:induction false} RestKeeps(side: Side, own: seq<OrderRec>, opposite: seq<OrderRec>, order: OrderRec, s: State)
    requires SidesInv(side, own, opposite, s) && Resting(order, side, s.book.symbol) && order.id in s.arrival
    requires forall i :: 0 <= i < |own| ==> own[i].id != order.id && s.arrival[own[i].id] < s.arrival[order.id]
    requires forall i :: 0 <= i < |opposite| ==> opposite[i].id != order.id && Below(side, order.Px(), opposite[i].Px())
    ensures SidesInv(side, Insert(own, order), opposite, s)
  {
    InsertKeeps(side, own, order, s);
    InsertedFrom(own, order);
    hide Insert, SideInv;
  }

  lemma {:induction false} StillKnown(queue: seq<OrderRec>, id: OrderId, side: Side, s: State)
    requires SideInv(side, queue, s) && id !in s.arrival && Timely(s)
    ensures forall i :: 0 <= i < |queue| ==> queue[i].id != id && s.arrival[queue[i].id] < s.clock
  {
    assert Known(queue, s);
  }

  /** A submission, seen from the order's side. */
  lemma {:induction false} SubmitSides(backend: Backend, s: State, order: OrderRec, own: seq<OrderRec>, opposite: seq<OrderRec>)
    requires SidesInv(order.side, own, opposite, s) && Timely(s) && Fresh(s, order)
    ensures var s' := s.(arrival := s.arrival[order.id := s.clock], clock := s.clock + 1);
            var m := Match(order, backend.Bound(order), opposite);
            SidesInv(order.side, if Rests(m.taker) then Insert(own, Settle(m.taker)) else own, m.rest, s')
  {
    var s' := s.(arrival := s.arrival[order.id := s.clock], clock := s.clock + 1);
    var bound, side := backend.Bound(order), order.side;
    StillKnown(own, order.id, side, s);
    StillKnown(opposite, order.id, side.Opposite(), s);
    LaterSide(side, own, s, s');
    LaterSide(side.Opposite(), opposite, s, s');
    MatchKeeps(order, bound, opposite, side.Opposite(), s');
    MatchApart(order, bound, opposite, own, side, s.book.symbol);
    if Rests(Match(order, bound, opposite).taker) {
      RestingPositive(side.Opposite(), s.book.symbol, opposite);
      ResidualRests(order, bound, opposite);
      ResidualUncrossed(order, bound, opposite, side, s);
      RestAt(order, bound, opposite, side.Opposite(), s.book.symbol);
      hide Match, SideInv, Settle, Apart, Uncrossed;
      RestKeeps(side, own, Match(order, bound, opposite).rest, Settle(Match(order, bound, opposite).taker), s');
    }
  }

  lemma {:induction false} SidesFlip(side: Side, own: seq<OrderRec>, opposite: seq<OrderRec>, s: State)
    ensures SidesInv(side, own, opposite, s) <==> SidesInv(side.Opposite(), opposite, own, s)
  {
    hide SideInv;
  }

  lemma {:induction false} SubmitKeeps(backend: Backend, s: State, order: OrderRec)
    requires Inv(s) && Fresh(s, order)
    ensures Inv(Step(backend, s, SubmitOp(order)))
  {
    var own, opposite := s.book.Queue(order.side), s.book.Queue(order.side.Opposite());
    SidesFlip(order.side, own, opposite, s);
    SubmitSides(backend, s, order, own, opposite);
    hide Match, Insert, Settle, Rests, SideInv, Apart, Uncrossed;
    var s1 := s.(arrival := s.arrival[order.id := s.clock], clock := s.clock + 1);
    var m := Match(order, backend.Bound(order), opposite);
    var own' := if Rests(m.taker) then Insert(own, Settle(m.taker)) else own;
    SidesFlip(order.side, own', m.rest, s1);
    var s' := Step(backend, s, SubmitOp(order));
    assert s'.book.Queue(order.side) == own' && s'.book.Queue(order.side.Opposite()) == m.rest;
    SameArrivals(Buy, s'.book.bids, s'.book.asks, s1, s');
  }

  lemma {:induction false} SameArrivals(side: Side, own: seq<OrderRec>, opposite: seq<OrderRec>, s: State, s': State)
    requires SidesInv(side, own, opposite, s) && s'.book.symbol == s.book.symbol && s'.arrival == s.arrival
    ensures SidesInv(side, own, opposite, s')
  {
  }

  // ---------- one cancellation keeps the invariant ----------

  lemma {:induction false} WithoutKeeps(side: Side, own: seq<OrderRec>, opposite: seq<OrderRec>, at: nat, s: State)
    requires SidesInv(side, own, opposite, s) && at < |own|
    ensures SidesInv(side, Without(own, at), opposite, s)
  {
    var q := Without(own, at);
    assert forall i :: 0 <= i < at ==> q[i] == own[i];
    assert forall i :: at <= i < |q| ==> q[i] == own[i + 1];
    forall i, j | 0 <= i < j < |q|
      ensures Ahead(side, q[i], q[j], s.arrival) && q[i].id != q[j].id
    {
      assert Ahead(side, own[if i < at then i else i + 1], own[if j < at then j else j + 1], s.arrival);
    }
  }

  lemma {:induction false} FoundAt(queue: seq<OrderRec>, id: OrderId) returns (at: nat)
    requires DistinctIds(queue) && Find(queue, id).Some?
    ensures at < |queue| && queue[at].id == id && Find(queue, id) == Some(queue[at]) && Remove(queue, id) == Without(queue, at)
  {
    var r := Find(queue, id).value;
    at :| 0 <= at < |queue| && queue[at] == r;
    RemoveAt(queue, at);
  }

  lemma {:induction false} CancelKeeps(s: State, id: OrderId)
    requires Inv(s)
    ensures Inv(s.(book := Cancel(s.book, id).0))
  {
    hide SideInv, Apart, Uncrossed;
    var s' := s.(book := Cancel(s.book, id).0);
    SideIds(Buy, s.book.bids, s);
    SideIds(Sell, s.book.asks, s);
    if Find(s.book.bids, id).Some? {
      var at := FoundAt(s.book.bids, id);
      WithoutKeeps(Buy, s.book.bids, s.book.asks, at, s);
    } else if Find(s.book.asks, id).Some? {
      var at := FoundAt(s.book.asks, id);
      SidesFlip(Buy, s.book.bids, s.book.asks, s);
      WithoutKeeps(Sell, s.book.asks, s.book.bids, at, s);
      SidesFlip(Sell, s'.book.asks, s'.book.bids, s);
    }
    SameArrivals(Buy, s'.book.bids, s'.book.asks, s, s');
  }

  lemma {:induction false} SideIds(side: Side, queue: seq<OrderRec>, s: State)
    requires SideInv(side, queue, s)
    ensures DistinctIds(queue)
  {
  }

  // ---------- runs ----------

  lemma {:induction false} StepKeeps(backend: Backend, s: State, op: Op)
    requires Inv(s) && Accepts(s, op)
    ensures Inv(Step(backend, s, op))
  {
    hide Inv;
    match op
    case SubmitOp(order) => SubmitKeeps(backend, s, order);
    case CancelOp(id) => CancelKeeps(s, id);
  }

  lemma {:induction false} RunKeeps(backend: Backend, s: State, ops: seq<Op>)
    requires Inv(s) && Admissible(backend, s, ops)
    ensures Inv(After(backend, s, ops))
    decreases |ops|
  {
    hide Inv;
    if ops != [] {
      StepKeeps(backend, s, ops[0]);
      RunKeeps(backend, Step(backend, s, ops[0]), ops[1..]);
    }
  }

  /** Every book reachable from an empty one. */
  lemma {:induction false} Reachable(backend: Backend, symbol: Symbol, ops: seq<Op>)
    requires Admissible(backend, Empty(symbol), ops)
    ensures Inv(After(backend, Empty(symbol), ops))
  {
    RunKeeps(backend, Empty(symbol), ops);
  }

  /** The book is never crossed. */
  lemma {:induction false} NeverCrossed(backend: Backend, symbol: Symbol, ops: seq<Op>)
    requires Admissible(backend, Empty(symbol), ops)
    ensures var book := After(backend, Empty(symbol), ops).book;
            book.bids != [] && book.asks != [] ==> book.bids[0].Px() < book.asks[0].Px()
  {
    Reachable(backend, symbol, ops);
  }

  /**
   Price-time priority: after any run, when a submission trades with `maker`, every
   order ahead of it on its side has been filled completely by an earlier trade of
   the same submission.
   */
  lemma {:induction false} PriceTimePriority(backend: Backend, symbol: Symbol, ops: seq<Op>, order: OrderRec, t: nat, ahead: nat, maker: nat)
    requires Admissible(backend, Empty(symbol), ops + [SubmitOp(order)])
    requires var s := After(backend, Empty(symbol), ops);
             var queue := s.book.Queue(order.side.Opposite());
             var report := Submit(s.book, order, backend.Bound(order)).1;
             && t < |report.trades| && maker < |queue| && report.trades[t].maker == queue[maker].id
             && ahead < |queue| && Ahead(order.side.Opposite(), queue[ahead], queue[maker], s.arrival)
    ensures var s := After(backend, Empty(symbol), ops);
            var queue := s.book.Queue(order.side.Opposite());
            var report := Submit(s.book, order, backend.Bound(order)).1;
            exists t' :: 0 <= t' < t && report.trades[t'].maker == queue[ahead].id
                         && report.trades[t'].quantity == queue[ahead].Remaining()
                         && queue[ahead].id !in Ids(Submit(s.book, order, backend.Bound(order)).0.Queue(order.side.Opposite()))
  {
    AdmissibleConcat(backend, Empty(symbol), ops, [SubmitOp(order)]);
    Reachable(backend, symbol, ops);
    var s := After(backend, Empty(symbol), ops);
    var side := order.side.Opposite();
    var queue := s.book.Queue(side);
    SidesFlip(Buy, s.book.bids, s.book.asks, s);
    assert SideInv(side, queue, s);
    TradeOrder(order, backend.Bound(order), queue, side, s, t, ahead, maker);
  }

  lemma {:induction false} AfterConcat(backend: Backend, s: State, a: seq<Op>, b: seq<Op>)
    ensures After(backend, s, a + b) == After(backend, After(backend, s, a), b)
    decreases |a|
  {
    if a == [] {
      assert a + b == b;
    } else {
      assert (a + b)[1..] == a[1..] + b;
      AfterConcat(backend, Step(backend, s, a[0]), a[1..], b);
    }
  }

  /** The first order of a book rests alone. */
  lemma {:induction false} FirstRests(symbol: Symbol, maker: OrderRec)
    requires maker.kind.Limit? && maker.tif.GTC? && maker.quantity > 0 && maker.filled == 0 && maker.status == Pending && maker.price.Some?
    ensures Submit(Book(symbol, [], [], 0), maker, maker.price)
              == (Book(symbol, [], [], 0).WithQueue(maker.side, [maker.(status := Open)]).(sequence := 1),
                  Report(maker.(status := Open), [], true, []))
  {
    var rested := maker.(status := Open);
    assert Match(maker, maker.price, []) == Sweep(maker, [], [], []);
    assert Insert([], rested) == [rested];
    hide Match, Insert;
  }

  lemma {:induction false} AdmissibleConcat(backend: Backend, s: State, a: seq<Op>, b: seq<Op>)
    requires Admissible(backend, s, a + b)
    ensures Admissible(backend, s, a) && Admissible(backend, After(backend, s, a), b)
    decreases |a|
  {
    if a == [] {
      assert a + b == b;
    } else {
      assert (a + b)[1..] == a[1..] + b;
      AdmissibleConcat(backend, Step(backend, s, a[0]), a[1..], b);
    }
  }

  lemma {:induction false} TradeOrder(order: OrderRec, bound: Option<Price>, queue: seq<OrderRec>, side: Side, s: State, t: nat, ahead: nat, maker: nat)
    requires SideInv(side, queue, s)
    requires var m := Match(order, bound, queue); t < |m.trades| && maker < |queue| && m.trades[t].maker == queue[maker].id
    requires ahead < |queue| && Ahead(side, queue[ahead], queue[maker], s.arrival)
    ensures var m := Match(order, bound, queue);
            && ahead < t && m.trades[ahead].maker == queue[ahead].id && m.trades[ahead].quantity == queue[ahead].Remaining()
            && queue[ahead].id !in Ids(m.rest)
  {
    RestingPositive(side, s.book.symbol, queue);
    MatchIsSweep(order, bound, queue);
    RestAt(order, bound, queue, side, s.book.symbol);
    var m := Match(order, bound, queue);
    hide Match;
    assert m.trades[t].maker == queue[t].id;
    assert maker == t;
    AheadIsBefore(side, queue, s.arrival, ahead, maker);
    assert m.trades[ahead] == TradeOf(order, queue[ahead], queue[ahead].Remaining());
    DoneIsGone(queue, m.rest, |m.done|, ahead);
  }

  lemma {:induction false} AheadIsBefore(side: Side, queue: seq<OrderRec>, arrival: map<OrderId, nat>, a: nat, b: nat)
    requires InOrder(side, queue, arrival) && a < |queue| && b < |queue| && Ahead(side, queue[a], queue[b], arrival)
    ensures a < b
  {
    NotBothAhead(side, queue[a], queue[b], arrival);
  }

  lemma {:induction false} NotBothAhead(side: Side, a: OrderRec, b: OrderRec, arrival: map<OrderId, nat>)
    ensures !(Ahead(side, a, b, arrival) && Ahead(side, b, a, arrival))
  {
  }

  lemma {:induction false} DoneIsGone(queue: seq<OrderRec>, rest: seq<OrderRec>, n: nat, k: nat)
    requires DistinctIds(queue) && k < n <= |queue| == |rest| + n
    requires forall i :: 0 <= i < |rest| ==> rest[i].id == queue[n + i].id
    ensures queue[k].id !in Ids(rest)
  {
    forall r | r in rest
      ensures r.id != queue[k].id
    {
      var i :| 0 <= i < |rest| && rest[i] == r;
      assert rest[i].id == queue[n + i].id;
    }
  }

  /** A cancellation succeeds exactly on a resting order, and only once. */
  lemma {:induction false} CancelIffResting(backend: Backend, symbol: Symbol, ops: seq<Op>, id: OrderId)
    requires Admissible(backend, Empty(symbol), ops)
    ensures var book := After(backend, Empty(symbol), ops).book;
            var (book', cancelled) := Cancel(book, id);
            && (cancelled.Some? <==> id in Ids(book.bids) + Ids(book.asks))
            && Ids(book'.bids) == Ids(book.bids) - {id} && Ids(book'.asks) == Ids(book.asks) - {id}
            && Cancel(book', id) == (book', None)
  {
    Reachable(backend, symbol, ops);
    var book := After(backend, Empty(symbol), ops).book;
    SideIds(Buy, book.bids, After(backend, Empty(symbol), ops));
    SideIds(Sell, book.asks, After(backend, Empty(symbol), ops));
    hide SideInv;
    RemoveIds(book.bids, id);
    RemoveIds(book.asks, id);
    assert Apart(book.bids, book.asks);
    if id in Ids(book.bids) {
      ApartIds(book.bids, book.asks, id);
    }
  }

  lemma {:induction false} ApartIds(a: seq<OrderRec>, b: seq<OrderRec>, id: OrderId)
    requires Apart(a, b) && id in Ids(a)
    ensures id !in Ids(b)
  {
  }

  lemma {:induction false} RemoveIds(queue: seq<OrderRec>, id: OrderId)
    requires DistinctIds(queue)
    ensures Ids(Remove(queue, id)) == Ids(queue) - {id}
  {
    if Find(queue, id).None? {
      forall i | 0 <= i < |queue|
        ensures queue[i].id != id
      {
        assert queue[i].id in Ids(queue);
      }
      NotFound(queue, id);
    } else {
      var at := FoundAt(queue, id);
      IdsWithout(queue, at);
    }
  }

  lemma {:induction false} IdsWithout(queue: seq<OrderRec>, at: nat)
    requires at < |queue| && DistinctIds(queue)
    ensures Ids(Without(queue, at)) == Ids(queue) - {queue[at].id}
  {
    IdsConcat(queue[..at], queue[at + 1..]);
    IdsConcat(queue[..at], [queue[at]] + queue[at + 1..]);
    IdsConcat([queue[at]], queue[at + 1..]);
    assert queue == queue[..at] + ([queue[at]] + queue[at + 1..]);
    assert Ids([queue[at]]) == {queue[at].id};
    assert queue[at].id !in Ids(queue[..at]) && queue[at].id !in Ids(queue[at + 1..]);
  }

  lemma {:induction false} IdsConcat(a: seq<OrderRec>, b: seq<OrderRec>)
    ensures Ids(a + b) == Ids(a) + Ids(b)
  {
    forall id | id in Ids(a) + Ids(b)
      ensures id in Ids(a + b)
    {
      if id in Ids(a) {
        var r :| r in a && r.id == id;
        assert r in a + b;
      } else {
        var r :| r in b && r.id == id;
        assert r in a + b;
      }
    }
  }
}
