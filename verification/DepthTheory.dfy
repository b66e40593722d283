/** What a depth snapshot shows of the orders behind it. */
module DepthTheory {
  import opened Domain
  import opened BookSpec
  import opened MatchTheory
  import opened BookRuns

  /** Everything resting at one price, wherever it is in the queue. */
  function VolumeAt(queue: seq<OrderRec>, price: Price): int {
    if queue == [] then 0
    else (if queue[0].Px() == price then queue[0].Remaining() else 0) + VolumeAt(queue[1..], price)
  }

  function CountAt(queue: seq<OrderRec>, price: Price): nat {
    if queue == [] then 0
    else (if queue[0].Px() == price then 1 else 0) + CountAt(queue[1..], price)
  }

  ghost predicate StrictlySorted(side: Side, levels: seq<Level>) {
    forall i, j :: 0 <= i < j < |levels| ==> Better(side, levels[i].price, levels[j].price)
  }

  ghost predicate Truthful(levels: seq<Level>, queue: seq<OrderRec>) {
    forall i :: 0 <= i < |levels| ==>
      && levels[i].quantity == VolumeAt(queue, levels[i].price) > 0
      && levels[i].count == CountAt(queue, levels[i].price) > 0
  }

  ghost predicate Shows(levels: seq<Level>, price: Price) {
    exists i :: 0 <= i < |levels| && levels[i].price == price
  }

  ghost predicate Complete(levels: seq<Level>, queue: seq<OrderRec>) {
    forall i :: 0 <= i < |queue| ==> Shows(levels, queue[i].Px())
  }

  lemma {:induction false} RunSplits(side: Side, queue: seq<OrderRec>)
    requires Sorted(side, queue) && queue != []
    ensures var p := queue[0].Px();
            var k := Run(queue, p);
            && k > 0 && (forall i :: 0 <= i < k ==> queue[i].Px() == p)
            && (forall i :: k <= i < |queue| ==> Better(side, p, queue[i].Px()))
  {
    RunFrom(side, queue, queue[0].Px());
  }

  lemma {:induction false} RunFrom(side: Side, queue: seq<OrderRec>, price: Price)
    requires Sorted(side, queue) && forall i :: 0 <= i < |queue| ==> AtLeastAsGood(side, price, queue[i].Px())
    ensures var k := Run(queue, price);
            && (forall i :: 0 <= i < k ==> queue[i].Px() == price)
            && (forall i :: k <= i < |queue| ==> Better(side, price, queue[i].Px()))
  {
    if queue != [] && queue[0].Px() == price {
      RunFrom(side, queue[1..], price);
      assert forall i :: 1 <= i < |queue| ==> queue[i] == queue[1..][i - 1];
    }
  }

  lemma {:induction false} AllAt(queue: seq<OrderRec>, price: Price)
    requires forall i :: 0 <= i < |queue| ==> queue[i].Px() == price
    ensures VolumeAt(queue, price) == Volume(queue) && CountAt(queue, price) == |queue|
  {
    if queue != [] {
      AllAt(queue[1..], price);
    }
  }

  lemma {:induction false} NoneAt(queue: seq<OrderRec>, price: Price)
    requires forall i :: 0 <= i < |queue| ==> queue[i].Px() != price
    ensures VolumeAt(queue, price) == 0 && CountAt(queue, price) == 0
  {
    if queue != [] {
      NoneAt(queue[1..], price);
    }
  }

  lemma {:induction false} AtSplits(a: seq<OrderRec>, b: seq<OrderRec>, price: Price)
    ensures VolumeAt(a + b, price) == VolumeAt(a, price) + VolumeAt(b, price)
    ensures CountAt(a + b, price) == CountAt(a, price) + CountAt(b, price)
  {
    if a == [] {
      assert a + b == b;
    } else {
      assert (a + b)[1..] == a[1..] + b;
      AtSplits(a[1..], b, price);
    }
  }

  lemma {:induction false} VolumePositive(queue: seq<OrderRec>)
    requires Positive(queue)
    ensures Volume(queue) >= |queue|
  {
    if queue != [] {
      VolumePositive(queue[1..]);
    }
  }

  ghost predicate HasPrice(queue: seq<OrderRec>, price: Price) {
    exists k :: 0 <= k < |queue| && queue[k].Px() == price
  }

  /** The prices in the levels are prices of orders. */
  lemma {:induction false} LevelPrices(queue: seq<OrderRec>)
    ensures forall i :: 0 <= i < |Levels(queue)| ==> HasPrice(queue, Levels(queue)[i].price)
    decreases |queue|
  {
    if queue != [] {
      var k := Run(queue, queue[0].Px());
      LevelPrices(queue[k..]);
      var ls, tail := Levels(queue), Levels(queue[k..]);
      forall i | 0 <= i < |ls|
        ensures HasPrice(queue, ls[i].price)
      {
        if i == 0 {
          assert queue[0].Px() == ls[0].price;
        } else {
          assert ls[i] == tail[i - 1] && HasPrice(queue[k..], tail[i - 1].price);
          var j :| 0 <= j < |queue[k..]| && queue[k..][j].Px() == tail[i - 1].price;
          assert queue[k + j].Px() == ls[i].price;
        }
      }
    }
  }

  /** The first level's figures, and what it leaves to the others. */
  lemma {:induction false} FirstLevel(side: Side, queue: seq<OrderRec>, k: nat)
    requires Sorted(side, queue) && Positive(queue) && queue != [] && k == Run(queue, queue[0].Px())
    ensures k > 0 && VolumeAt(queue, queue[0].Px()) == Volume(queue[..k]) > 0 && CountAt(queue, queue[0].Px()) == k
    ensures Sorted(side, queue[k..]) && Positive(queue[k..])
    ensures forall p :: p != queue[0].Px() ==> VolumeAt(queue, p) == VolumeAt(queue[k..], p) && CountAt(queue, p) == CountAt(queue[k..], p)
    ensures forall i :: 0 <= i < |queue[k..]| ==> Better(side, queue[0].Px(), queue[k..][i].Px())
  {
    hide VolumeAt, CountAt, Volume, Run;
    RunSplits(side, queue);
    var p0 := queue[0].Px();
    assert queue == queue[..k] + queue[k..];
    forall p
      ensures VolumeAt(queue, p) == VolumeAt(queue[..k], p) + VolumeAt(queue[k..], p)
      ensures CountAt(queue, p) == CountAt(queue[..k], p) + CountAt(queue[k..], p)
    {
      AtSplits(queue[..k], queue[k..], p);
    }
    AllAt(queue[..k], p0);
    NoneAt(queue[k..], p0);
    VolumePositive(queue[..k]);
    forall p | p != p0
      ensures VolumeAt(queue[..k], p) == 0 && CountAt(queue[..k], p) == 0
    {
      NoneAt(queue[..k], p);
    }
  }

  /**
   The levels of a sorted queue: one per price that has orders, best price first,
   each with the exact volume and number of the orders there.
   */
  lemma {:induction false} LevelsTellAll(side: Side, queue: seq<OrderRec>)
    requires Sorted(side, queue) && Positive(queue)
    ensures StrictlySorted(side, Levels(queue)) && Truthful(Levels(queue), queue) && Complete(Levels(queue), queue)
    decreases |queue|
  {
    if queue != [] {
      var p, k := queue[0].Px(), Run(queue, queue[0].Px());
      FirstLevel(side, queue, k);
      LevelsTellAll(side, queue[k..]);
      LevelPrices(queue[k..]);
      RunSplits(side, queue);
      AddLevel(side, queue, k, Levels(queue[k..]));
    }
  }

  lemma {:induction false} AddLevel(side: Side, queue: seq<OrderRec>, k: nat, tail: seq<Level>)
    requires queue != [] && 0 < k <= |queue|
    requires VolumeAt(queue, queue[0].Px()) == Volume(queue[..k]) > 0 && CountAt(queue, queue[0].Px()) == k
    requires forall p :: p != queue[0].Px() ==> VolumeAt(queue, p) == VolumeAt(queue[k..], p) && CountAt(queue, p) == CountAt(queue[k..], p)
    requires forall i :: 0 <= i < |queue[k..]| ==> Better(side, queue[0].Px(), queue[k..][i].Px())
    requires forall i :: 0 <= i < k ==> queue[i].Px() == queue[0].Px()
    requires StrictlySorted(side, tail) && Truthful(tail, queue[k..]) && Complete(tail, queue[k..])
    requires forall i :: 0 <= i < |tail| ==> HasPrice(queue[k..], tail[i].price)
    ensures var ls := [Level(queue[0].Px(), Volume(queue[..k]), k)] + tail;
            StrictlySorted(side, ls) && Truthful(ls, queue) && Complete(ls, queue)
  {
    var first := Level(queue[0].Px(), Volume(queue[..k]), k);
    forall i | 0 <= i < |tail|
      ensures Better(side, queue[0].Px(), tail[i].price)
    {
      assert HasPrice(queue[k..], tail[i].price);
      var j :| 0 <= j < |queue[k..]| && queue[k..][j].Px() == tail[i].price;
    }
    var ls := [first] + tail;
    assert ls[0] == first && forall i :: 0 < i < |ls| ==> ls[i] == tail[i - 1];
    AddedComplete(queue, k, first, tail);
    hide Complete, VolumeAt, CountAt;
  }

  lemma {:induction false} AddedComplete(queue: seq<OrderRec>, k: nat, first: Level, tail: seq<Level>)
    requires 0 < k <= |queue| && Complete(tail, queue[k..])
    requires forall i :: 0 <= i < k ==> queue[i].Px() == first.price
    ensures Complete([first] + tail, queue)
  {
    var ls := [first] + tail;
    forall i | 0 <= i < |queue|
      ensures Shows(ls, queue[i].Px())
    {
      if i < k {
        assert ls[0].price == queue[i].Px();
      } else {
        assert queue[i] == queue[k..][i - k];
        var j :| 0 <= j < |tail| && tail[j].price == queue[i].Px();
        assert ls[j + 1].price == queue[i].Px();
      }
    }
  }

  /** Rows as a backend shows them: C++ shows what is left of volume and number in 32 bits. */
  ghost predicate ShownTruly(backend: Backend, rows: seq<Level>, queue: seq<OrderRec>) {
    forall i :: 0 <= i < |rows| ==>
      && rows[i].quantity == backend.Word(VolumeAt(queue, rows[i].price)) && VolumeAt(queue, rows[i].price) > 0
      && rows[i].count == backend.Word(CountAt(queue, rows[i].price)) && CountAt(queue, rows[i].price) > 0
  }

  // ---------- what a snapshot is numbered ----------

  function Submitted(ops: seq<Op>): nat {
    if ops == [] then 0 else (if ops[0].SubmitOp? then 1 else 0) + Submitted(ops[1..])
  }

  /** Submissions are counted, cancellations are not. */
  lemma {:induction false} StepSequence(backend: Backend, s: State, op: Op)
    ensures Step(backend, s, op).book.sequence == s.book.sequence + (if op.SubmitOp? then 1 else 0)
    ensures Step(backend, s, op).book.symbol == s.book.symbol
  {
    hide Match, Settle, Insert, Remove;
  }

  lemma {:induction false} SequenceCounts(backend: Backend, s: State, ops: seq<Op>)
    ensures After(backend, s, ops).book.sequence == s.book.sequence + Submitted(ops)
    ensures After(backend, s, ops).book.symbol == s.book.symbol
    decreases |ops|
  {
    if ops != [] {
      StepSequence(backend, s, ops[0]);
      SequenceCounts(backend, Step(backend, s, ops[0]), ops[1..]);
    }
  }

  /** Nothing is left out that is at least as good as a row shown, and the best price is shown if any is. */
  ghost predicate FromTheTop(side: Side, levels: seq<Level>, queue: seq<OrderRec>, depth: nat) {
    && (forall i, j :: 0 <= i < |queue| && 0 <= j < |levels| && AtLeastAsGood(side, queue[i].Px(), levels[j].price) ==> Shows(levels, queue[i].Px()))
    && (queue != [] && depth > 0 ==> levels != [] && levels[0].price == queue[0].Px())
  }

  lemma {:induction false} TopTaken(side: Side, all: seq<Level>, shown: seq<Level>, queue: seq<OrderRec>, depth: nat)
    requires StrictlySorted(side, all) && Complete(all, queue) && (queue != [] ==> all != [] && all[0].price == queue[0].Px())
    requires |shown| == (if depth < |all| then depth else |all|) && forall i :: 0 <= i < |shown| ==> shown[i].price == all[i].price
    ensures FromTheTop(side, shown, queue, depth)
  {
    forall i, j | 0 <= i < |queue| && 0 <= j < |shown| && AtLeastAsGood(side, queue[i].Px(), shown[j].price)
      ensures Shows(shown, queue[i].Px())
    {
      assert Shows(all, queue[i].Px());
      var k :| 0 <= k < |all| && all[k].price == queue[i].Px();
      assert all[j].price == shown[j].price;
      assert k <= j;
      assert shown[k].price == queue[i].Px();
    }
  }

  /**
   Every snapshot of every reachable book is sorted, uncrossed and complete up to its
   depth, and truthful in the backend's words: exactly so in Python, modulo 2^32 in C++.
   */
  lemma {:induction false} SnapshotsTellTheTruth(backend: Backend, symbol: Symbol, ops: seq<Op>, depth: nat)
    requires Admissible(backend, Empty(symbol), ops)
    ensures var book := After(backend, Empty(symbol), ops).book;
            var shot := backend.Show(TakeSnapshot(book, depth));
            && shot.symbol == symbol && shot.sequence == Submitted(ops) && |shot.bids| <= depth && |shot.asks| <= depth
            && FromTheTop(Buy, shot.bids, book.bids, depth) && FromTheTop(Sell, shot.asks, book.asks, depth)
            && StrictlySorted(Buy, shot.bids) && ShownTruly(backend, shot.bids, book.bids)
            && StrictlySorted(Sell, shot.asks) && ShownTruly(backend, shot.asks, book.asks)
            && (|shot.bids| < depth ==> Complete(shot.bids, book.bids))
            && (|shot.asks| < depth ==> Complete(shot.asks, book.asks))
            && (shot.bids != [] && shot.asks != [] ==> shot.bids[0].price < shot.asks[0].price)
  {
    hide Levels, SideInv, Uncrossed, Apart, Admissible, After, ShownTruly, Complete, StrictlySorted, FromTheTop, Submitted;
    var s := After(backend, Empty(symbol), ops);
    SequenceCounts(backend, Empty(symbol), ops);
    Reachable(backend, symbol, ops);
    ShownTells(backend, Buy, s.book.bids, s, depth);
    ShownTells(backend, Sell, s.book.asks, s, depth);
    NeverCrossed(backend, symbol, ops);
  }

  lemma {:induction false} ShownTells(backend: Backend, side: Side, queue: seq<OrderRec>, s: State, depth: nat)
    requires SideInv(side, queue, s)
    ensures var exact := Take(Levels(queue), depth);
            var shown := if backend.Python? then exact else Wrapped(exact);
            && StrictlySorted(side, shown) && ShownTruly(backend, shown, queue) && (|shown| < depth ==> Complete(shown, queue))
            && FromTheTop(side, shown, queue, depth) && |shown| <= depth
            && (shown != [] ==> queue != [] && shown[0].price == queue[0].Px())
  {
    hide Levels, SideInv, Complete, VolumeAt, CountAt, Better, Wrapped;
    QueueTells(side, queue, s);
    FirstLevelIsBest(queue);
    var exact := Take(Levels(queue), depth);
    assert Truthful(exact, queue);
    TopTaken(side, Levels(queue), if backend.Python? then exact else Wrapped(exact), queue, depth);
    hide FromTheTop;
    if |exact| < depth && backend.Native? {
      SamePrices(exact, Wrapped(exact), queue);
    }
  }

  lemma {:induction false} SamePrices(rows: seq<Level>, others: seq<Level>, queue: seq<OrderRec>)
    requires Complete(rows, queue) && |others| == |rows| && forall i :: 0 <= i < |rows| ==> others[i].price == rows[i].price
    ensures Complete(others, queue)
  {
    forall i | 0 <= i < |queue|
      ensures Shows(others, queue[i].Px())
    {
      var j :| 0 <= j < |rows| && rows[j].price == queue[i].Px();
      assert others[j].price == queue[i].Px();
    }
  }

  lemma {:induction false} FirstLevelIsBest(queue: seq<OrderRec>)
    ensures Levels(queue) == [] <==> queue == []
    ensures queue != [] ==> Levels(queue)[0].price == queue[0].Px()
  {
  }

  lemma {:induction false} QueueTells(side: Side, queue: seq<OrderRec>, s: State)
    requires SideInv(side, queue, s)
    ensures StrictlySorted(side, Levels(queue)) && Truthful(Levels(queue), queue) && Complete(Levels(queue), queue)
  {
    RestingPositive(side, s.book.symbol, queue);
    OrderSorts(side, queue, s.arrival);
    hide SideInv;
    LevelsTellAll(side, queue);
  }
}
