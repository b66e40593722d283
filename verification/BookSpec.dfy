/**
 The abstract order book: per side one flat queue of resting orders, best price
 first and, at one price, oldest first. Both concrete books refine it.
 */
module BookSpec {
  import opened Domain

  datatype Book = Book(symbol: Symbol, bids: seq<OrderRec>, asks: seq<OrderRec>, sequence: nat) {
    function Queue(side: Side): seq<OrderRec> { if side.Buy? then bids else asks }

    function WithQueue(side: Side, queue: seq<OrderRec>): Book {
      if side.Buy? then this.(bids := queue) else this.(asks := queue)
    }
  }

  /** What a submission reports besides the new book. `done` are the makers it filled completely. */
  datatype Report = Report(order: OrderRec, trades: seq<Trade>, resting: bool, done: seq<OrderRec>)

  /** On `side`, an order at `p` is matched no later than one at `q`. */
  predicate AtLeastAsGood(side: Side, p: Price, q: Price) {
    if side.Buy? then p >= q else p <= q
  }

  predicate Better(side: Side, p: Price, q: Price) {
    if side.Buy? then p > q else p < q
  }

  /** 2^32, where the C++ counters wrap. */
  const WORD: int := 0x1_0000_0000

  /** A level row as 32-bit counters show it. */
  function Wrap(l: Level): Level { Level(l.price, l.quantity % WORD, l.count % WORD) }

  function Wrapped(ls: seq<Level>): (ws: seq<Level>)
    ensures |ws| == |ls| && forall i :: 0 <= i < |ls| ==> ws[i] == Wrap(ls[i])
  {
    if ls == [] then [] else [Wrap(ls[0])] + Wrapped(ls[1..])
  }

  function WrapSnapshot(s: Snapshot): Snapshot {
    Snapshot(s.symbol, s.sequence, Wrapped(s.bids), Wrapped(s.asks))
  }

  function Framed(s: Snapshot): Snapshot { s.(sequence := s.sequence % WORD) }

  /**
   The two implementations differ in when they take an order to accept any price, in
   the width of what they show, and in the symbols they open books for.
   */
  datatype Backend = Python | Native {
    function Bound(order: OrderRec): Option<Price> {
      if Python? then order.price
      else if order.kind.Market? then None
      else Some(order.Px())
    }

    /** A total or count as the backend keeps it. */
    function Word(x: int): int { if Python? then x else x % WORD }

    function Show(s: Snapshot): Snapshot { if Python? then s else WrapSnapshot(s) }

    /** What reaches the service: a C++ snapshot crosses in a frame with a 32-bit sequence. */
    function Deliver(s: Snapshot): Snapshot { if Python? then s else Framed(WrapSnapshot(s)) }

    predicate Lists(symbol: Symbol) { Python? || 1 <= |symbol| <= 6 }
  }

  /** `bound` None is an order that takes any price. */
  predicate Crosses(side: Side, bound: Option<Price>, level: Price) {
    bound.None? || AtLeastAsGood(side, bound.value, level)
  }

  // ---------- matching ----------

  function AfterFill(maker: OrderRec, quantity: int): OrderRec {
    var filled := maker.filled + quantity;
    maker.(filled := filled, status := if filled == maker.quantity then Filled else PartiallyFilled)
  }

  datatype Sweep = Sweep(taker: OrderRec, done: seq<OrderRec>, rest: seq<OrderRec>, trades: seq<Trade>)

  function TradeOf(taker: OrderRec, maker: OrderRec, quantity: int): Trade {
    Trade(taker.symbol, maker.Px(), quantity, taker.side, maker.id, taker.id)
  }

  /** Take from the front of the opposite queue until the taker, the queue or the price gives out. */
  function Match(taker: OrderRec, bound: Option<Price>, opposite: seq<OrderRec>): (s: Sweep)
    decreases |opposite|
  {
    if taker.Remaining() <= 0 || opposite == [] || !Crosses(taker.side, bound, opposite[0].Px()) then
      Sweep(taker, [], opposite, [])
    else
      var maker := opposite[0];
      var fill := Min(taker.Remaining(), maker.Remaining());
      var taker' := taker.(filled := taker.filled + fill);
      var maker' := AfterFill(maker, fill);
      var trade := TradeOf(taker, maker, fill);
      if maker'.Remaining() == 0 then
        var s := Match(taker', bound, opposite[1..]);
        Sweep(s.taker, [maker'] + s.done, s.rest, [trade] + s.trades)
      else
        Sweep(taker', [], [maker'] + opposite[1..], [trade])
  }

  /** A sweep after some fills have already been made. */
  function Prepend(trades: seq<Trade>, done: seq<OrderRec>, s: Sweep): Sweep {
    Sweep(s.taker, done + s.done, s.rest, trades + s.trades)
  }

  lemma {:induction false} PrependPrepend(ts: seq<Trade>, ds: seq<OrderRec>, ts': seq<Trade>, ds': seq<OrderRec>, s: Sweep)
    ensures Prepend(ts, ds, Prepend(ts', ds', s)) == Prepend(ts + ts', ds + ds', s)
  {
    assert ds + (ds' + s.done) == ds + ds' + s.done;
    assert ts + (ts' + s.trades) == ts + ts' + s.trades;
  }

  /** Matching is one fill followed by matching what is left, whichever side the fill exhausts. */
  lemma {:induction false} MatchStep(taker: OrderRec, bound: Option<Price>, opposite: seq<OrderRec>)
    requires taker.Remaining() > 0 && opposite != [] && Crosses(taker.side, bound, opposite[0].Px())
    ensures var fill := Min(taker.Remaining(), opposite[0].Remaining());
            var maker := AfterFill(opposite[0], fill);
            var gone := maker.Remaining() == 0;
            Match(taker, bound, opposite)
              == Prepend([TradeOf(taker, opposite[0], fill)], if gone then [maker] else [],
                         Match(taker.(filled := taker.filled + fill), bound,
                               if gone then opposite[1..] else [maker] + opposite[1..]))
  {
  }

  lemma {:induction false} NoMoreMatches(taker: OrderRec, bound: Option<Price>, queue: seq<OrderRec>, done: seq<OrderRec>, trades: seq<Trade>)
    requires taker.Remaining() <= 0 || queue == [] || !Crosses(taker.side, bound, queue[0].Px())
    ensures Prepend(trades, done, Match(taker, bound, queue)) == Sweep(taker, done, queue, trades)
  {
  }

  /** One fill moves a partly made sweep one trade further towards the same goal. */
  lemma {:induction false} SweepAdvances(goal: Sweep, trades: seq<Trade>, done: seq<OrderRec>, taker: OrderRec, bound: Option<Price>,
                      queue: seq<OrderRec>, maker: OrderRec, done': seq<OrderRec>, queue': seq<OrderRec>)
    requires goal == Prepend(trades, done, Match(taker, bound, queue))
    requires taker.Remaining() > 0 && queue != [] && Crosses(taker.side, bound, queue[0].Px())
    requires maker == AfterFill(queue[0], Min(taker.Remaining(), queue[0].Remaining()))
    requires if maker.Remaining() == 0 then done' == done + [maker] && queue' == queue[1..]
             else done' == done && queue' == [maker] + queue[1..]
    ensures var fill := Min(taker.Remaining(), queue[0].Remaining());
            goal == Prepend(trades + [TradeOf(taker, queue[0], fill)], done',
                            Match(taker.(filled := taker.filled + fill), bound, queue'))
  {
    var fill := Min(taker.Remaining(), queue[0].Remaining());
    MatchStep(taker, bound, queue);
    var gone := if maker.Remaining() == 0 then [maker] else [];
    assert done' == done + gone;
    PrependPrepend(trades, done, [TradeOf(taker, queue[0], fill)], gone,
                   Match(taker.(filled := taker.filled + fill), bound, queue'));
  }

  // ---------- submit and cancel ----------

  predicate Rests(taker: OrderRec) {
    taker.Remaining() > 0 && taker.kind.Limit? && (taker.tif.GTC? || taker.tif.GTD?)
  }

  /** The taker's final status, once matching is over and the time-in-force policy has been applied. */
  function Settle(taker: OrderRec): OrderRec {
    var status :=
      if taker.Remaining() == 0 then Filled
      else if taker.filled > 0 then PartiallyFilled
      else taker.status;
    if taker.Remaining() <= 0 || taker.kind.Market? then taker.(status := status)
    else if taker.tif.IOC? || taker.tif.FOK? then taker.(status := Cancelled)
    else taker.(status := if taker.filled == 0 then Open else status)
  }

  /** Number of leading orders whose price is at least as good as `price`: where a newcomer queues. */
  function Rank(queue: seq<OrderRec>, side: Side, price: Price): (k: nat)
    ensures k <= |queue|
  {
    if queue == [] || !AtLeastAsGood(side, queue[0].Px(), price) then 0
    else 1 + Rank(queue[1..], side, price)
  }

  function Insert(queue: seq<OrderRec>, order: OrderRec): seq<OrderRec> {
    var k := Rank(queue, order.side, order.Px());
    queue[..k] + [order] + queue[k..]
  }

  function Submit(book: Book, order: OrderRec, bound: Option<Price>): (Book, Report) {
    var s := Match(order, bound, book.Queue(order.side.Opposite()));
    var final := Settle(s.taker);
    var matched := book.WithQueue(order.side.Opposite(), s.rest).(sequence := book.sequence + 1);
    var book' :=
      if Rests(s.taker) then matched.WithQueue(order.side, Insert(book.Queue(order.side), final))
      else matched;
    (book', Report(final, s.trades, Rests(s.taker), s.done))
  }

  function Ids(queue: seq<OrderRec>): set<OrderId> {
    set r | r in queue :: r.id
  }

  function Remove(queue: seq<OrderRec>, id: OrderId): seq<OrderRec> {
    if queue == [] then []
    else if queue[0].id == id then queue[1..]
    else [queue[0]] + Remove(queue[1..], id)
  }

  function Find(queue: seq<OrderRec>, id: OrderId): (r: Option<OrderRec>)
    ensures r.Some? ==> r.value in queue && r.value.id == id
    ensures r.None? <==> id !in Ids(queue)
  {
    if queue == [] then None
    else if queue[0].id == id then Some(queue[0])
    else
      assert queue == [queue[0]] + queue[1..];
      Find(queue[1..], id)
  }

  function Without<T>(xs: seq<T>, at: nat): seq<T>
    requires at < |xs|
  {
    xs[..at] + xs[at + 1..]
  }

  /** Ids being distinct, removing and finding by id is removing and reading at the id's position. */
  lemma {:induction false} RemoveAt(queue: seq<OrderRec>, at: nat)
    requires at < |queue| && forall i :: 0 <= i < at ==> queue[i].id != queue[at].id
    ensures Remove(queue, queue[at].id) == Without(queue, at)
    ensures Find(queue, queue[at].id) == Some(queue[at])
  {
    if at > 0 {
      RemoveAt(queue[1..], at - 1);
    }
  }

  lemma {:induction false} NotFound(queue: seq<OrderRec>, id: OrderId)
    requires forall i :: 0 <= i < |queue| ==> queue[i].id != id
    ensures Find(queue, id) == None && Remove(queue, id) == queue
  {
    if queue != [] {
      NotFound(queue[1..], id);
    }
  }

  function AfterCancel(r: OrderRec): OrderRec { r.(status := Cancelled) }

  /** Cancelling leaves `sequence` alone. */
  function Cancel(book: Book, id: OrderId): (Book, Option<OrderRec>) {
    var b := Find(book.bids, id);
    var a := Find(book.asks, id);
    if b.Some? then (book.(bids := Remove(book.bids, id)), Some(AfterCancel(b.value)))
    else if a.Some? then (book.(asks := Remove(book.asks, id)), Some(AfterCancel(a.value)))
    else (book, None)
  }

  /** Cancelling the order at a known position. */
  lemma {:induction false} CancelAt(book: Book, side: Side, at: nat)
    requires var own, other := book.Queue(side), book.Queue(side.Opposite());
             && at < |own| && (forall i :: 0 <= i < at ==> own[i].id != own[at].id)
             && (forall i :: 0 <= i < |other| ==> other[i].id != own[at].id)
    ensures var own := book.Queue(side);
            Cancel(book, own[at].id) == (book.WithQueue(side, Without(own, at)), Some(AfterCancel(own[at])))
  {
    RemoveAt(book.Queue(side), at);
    NotFound(book.Queue(side.Opposite()), book.Queue(side)[at].id);
  }

  // ---------- depth snapshots ----------

  function Volume(queue: seq<OrderRec>): int {
    if queue == [] then 0 else queue[0].Remaining() + Volume(queue[1..])
  }

  /** Length of the leading run of orders at the first order's price. */
  function Run(queue: seq<OrderRec>, price: Price): (k: nat)
    ensures k <= |queue|
    ensures queue != [] && queue[0].Px() == price ==> k > 0
  {
    if queue == [] || queue[0].Px() != price then 0 else 1 + Run(queue[1..], price)
  }

  lemma {:induction false} RunIs(queue: seq<OrderRec>, price: Price, k: nat)
    requires k <= |queue| && forall i :: 0 <= i < k ==> queue[i].Px() == price
    requires k < |queue| ==> queue[k].Px() != price
    ensures Run(queue, price) == k
  {
    if k > 0 {
      RunIs(queue[1..], price, k - 1);
    }
  }

  /** Aggregate a queue into price levels. */
  function Levels(queue: seq<OrderRec>): seq<Level>
    decreases |queue|
  {
    if queue == [] then []
    else
      var k := Run(queue, queue[0].Px());
      [Level(queue[0].Px(), Volume(queue[..k]), k)] + Levels(queue[k..])
  }

  function Take<T>(xs: seq<T>, depth: nat): seq<T> {
    if depth < |xs| then xs[..depth] else xs
  }

  function TakeSnapshot(book: Book, depth: nat): Snapshot {
    Snapshot(book.symbol, book.sequence, Take(Levels(book.bids), depth), Take(Levels(book.asks), depth))
  }
}
