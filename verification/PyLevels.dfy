/**
 Orders, price levels and one sorted side of the Python book, updated in place:
 a FIFO queue per level and a running total per level.
 */
module PyLevels {
  import opened Domain
  import opened BookSpec

  class Order {
    const id: OrderId
    const symbol: Symbol
    const side: Side
    const kind: OrderType
    const price: Option<Price>
    const quantity: int
    const tif: Tif
    var filled: int
    var status: Status

    constructor (r: OrderRec)
      ensures Rec() == r
    {
      id, symbol, side, kind, price := r.id, r.symbol, r.side, r.kind, r.price;
      quantity, tif, filled, status := r.quantity, r.tif, r.filled, r.status;
    }

    function Rec(): OrderRec
      reads this
    {
      OrderRec(id, symbol, side, kind, price, quantity, tif, filled, status)
    }

    function Remaining(): int
      reads this`filled
    {
      quantity - filled
    }

    function Px(): Price { if price.Some? then price.value else 0.0 }
  }

  ghost function Recs(orders: seq<Order>): (rs: seq<OrderRec>)
    reads orders
    ensures |rs| == |orders|
    ensures forall i :: 0 <= i < |orders| ==> rs[i] == orders[i].Rec()
  {
    seq(|orders|, i requires 0 <= i < |orders| reads orders => orders[i].Rec())
  }

  ghost function SumRemaining(orders: seq<Order>): int
    reads orders`filled
  {
    if orders == [] then 0 else orders[0].Remaining() + SumRemaining(orders[1..])
  }

  lemma {:induction false} SumRemainingConcat(a: seq<Order>, b: seq<Order>)
    ensures SumRemaining(a + b) == SumRemaining(a) + SumRemaining(b)
  {
    if a == [] {
      assert a + b == b;
    } else {
      assert (a + b)[1..] == a[1..] + b;
      SumRemainingConcat(a[1..], b);
    }
  }

  ghost predicate DistinctIds(orders: seq<Order>) {
    forall i, j :: 0 <= i < j < |orders| ==> orders[i].id != orders[j].id
  }

  ghost predicate Absent(order: Order, orders: seq<Order>) {
    forall i :: 0 <= i < |orders| ==> orders[i].id != order.id
  }

  ghost function ObjIds(orders: seq<Order>): set<OrderId> {
    set o | o in orders :: o.id
  }

  /** Where a newcomer queues; prices never change, so this reads no state. */
  ghost function RankOf(queue: seq<Order>, side: Side, price: Price): (k: nat)
    ensures k <= |queue|
  {
    if queue == [] || !AtLeastAsGood(side, queue[0].Px(), price) then 0
    else 1 + RankOf(queue[1..], side, price)
  }

  lemma {:induction false} RankOfIs(queue: seq<Order>, side: Side, price: Price, k: nat)
    requires k <= |queue|
    requires forall i :: 0 <= i < k ==> AtLeastAsGood(side, queue[i].Px(), price)
    requires k < |queue| ==> !AtLeastAsGood(side, queue[k].Px(), price)
    ensures RankOf(queue, side, price) == k
  {
    if k > 0 {
      RankOfIs(queue[1..], side, price, k - 1);
    }
  }

  lemma {:induction false} RankOfRecs(queue: seq<Order>, side: Side, price: Price)
    ensures Rank(Recs(queue), side, price) == RankOf(queue, side, price)
  {
    if queue != [] {
      RankOfRecs(queue[1..], side, price);
      assert Recs(queue)[1..] == Recs(queue[1..]);
    }
  }

  class PriceLevel {
    const price: Price
    ghost const home: LevelMap
    var orders: seq<Order>
    var totalQuantity: int

    constructor (price: Price, ghost home: LevelMap)
      ensures this.price == price && this.home == home
      ensures orders == [] && totalQuantity == 0
    {
      this.price, this.home := price, home;
      orders, totalQuantity := [], 0;
    }

    method Add(order: Order)
      modifies this
      ensures orders == old(orders) + [order]
      ensures totalQuantity == old(totalQuantity) + order.Remaining()
    {
      orders := orders + [order];
      totalQuantity := totalQuantity + order.Remaining();
    }

    method Remove(id: OrderId) returns (removed: Order?, ghost at: nat)
      modifies this
      ensures removed == null ==> (forall o :: o in orders ==> o.id != id) && orders == old(orders) && totalQuantity == old(totalQuantity)
      ensures removed != null ==>
                at < |old(orders)| && removed == old(orders)[at] && removed.id == id
                && orders == old(orders)[..at] + old(orders)[at + 1..]
                && totalQuantity == old(totalQuantity) - removed.Remaining()
    {
      var i := 0;
      while i < |orders|
        invariant 0 <= i <= |orders|
        invariant orders == old(orders) && totalQuantity == old(totalQuantity)
        invariant forall j :: 0 <= j < i ==> orders[j].id != id
      {
        if orders[i].id == id {
          removed, at := orders[i], i;
          totalQuantity := totalQuantity - removed.Remaining();
          orders := orders[..i] + orders[i + 1..];
          return;
        }
        i := i + 1;
      }
      removed, at := null, 0;
    }
  }

  /** All orders of the levels, in level order. */
  ghost function Concat(levels: seq<PriceLevel>): seq<Order>
    reads levels
  {
    if levels == [] then [] else levels[0].orders + Concat(levels[1..])
  }

  lemma {:induction false} ConcatSplit(a: seq<PriceLevel>, b: seq<PriceLevel>)
    ensures Concat(a + b) == Concat(a) + Concat(b)
  {
    if a == [] {
      assert a + b == b;
    } else {
      assert (a + b)[1..] == a[1..] + b;
      ConcatSplit(a[1..], b);
    }
  }

  lemma {:induction false} SplitConcat(levels: seq<PriceLevel>, i: nat)
    requires i <= |levels|
    ensures Concat(levels) == Concat(levels[..i]) + Concat(levels[i..])
  {
    assert levels == levels[..i] + levels[i..];
    ConcatSplit(levels[..i], levels[i..]);
  }

  lemma {:induction false} ConcatAround(levels: seq<PriceLevel>, i: nat)
    requires i < |levels|
    ensures Concat(levels[..i + 1]) == Concat(levels[..i]) + levels[i].orders
    ensures Concat(levels) == Concat(levels[..i]) + levels[i].orders + Concat(levels[i + 1..])
  {
    SplitConcat(levels, i + 1);
    assert levels[..i + 1] == levels[..i] + [levels[i]];
    ConcatSplit(levels[..i], [levels[i]]);
    assert Concat([levels[i]]) == levels[i].orders;
  }

  lemma {:induction false} InSomeLevel(levels: seq<PriceLevel>, o: Order)
    requires o in Concat(levels)
    ensures exists l :: l in levels && o in l.orders
  {
    if o in levels[0].orders {
      assert levels[0] in levels;
    } else {
      InSomeLevel(levels[1..], o);
      var l :| l in levels[1..] && o in l.orders;
      assert l in levels;
    }
  }

  /**
   One side of the book: the sorted dictionary from price to level, as the sequence
   of its values in key order. `queue` is the flat queue it stands for.
   */
  class LevelMap {
    const side: Side
    ghost const symbol: Symbol
    var levels: seq<PriceLevel>
    ghost var queue: seq<Order>

    constructor (side: Side, ghost symbol: Symbol)
      ensures this.side == side && this.symbol == symbol
      ensures levels == [] && queue == [] && Valid()
    {
      this.side, this.symbol := side, symbol;
      levels, queue := [], [];
    }

    /** Facts about the members that no update can change. */
    ghost predicate Members()
      reads this`queue
    {
      && (forall o :: o in queue ==> o.side == side && o.symbol == symbol && o.price.Some?)
      && (forall i, j :: 0 <= i < j < |queue| ==> queue[i].id != queue[j].id)
    }

    /** The dictionary's keys are sorted, best price first. */
    ghost predicate Ordered()
      reads this`levels
    {
      && (forall l :: l in levels ==> l.home == this)
      && (forall i, j :: 0 <= i < j < |levels| ==> Better(side, levels[i].price, levels[j].price))
    }

    ghost predicate Flat()
      reads this, levels
    {
      && Concat(levels) == queue
      && (forall l :: l in levels ==> forall o :: o in l.orders ==> o.price == Some(l.price))
    }

    /** No level is empty, except possibly the one at `hole`. */
    ghost predicate NonEmpty(hole: nat)
      reads this`levels, levels
    {
      forall i :: 0 <= i < |levels| && i != hole ==> levels[i].orders != []
    }

    ghost predicate Live()
      reads this`queue, queue`filled
    {
      forall o :: o in queue ==> o.Remaining() > 0
    }

    ghost predicate TotalOk(l: PriceLevel)
      reads this`queue, l, queue`filled
    {
      && (forall i :: 0 <= i < |l.orders| ==> l.orders[i] in queue)
      && l.totalQuantity == SumRemaining(l.orders)
    }

    ghost predicate Totals()
      reads this, levels, queue`filled
    {
      forall i :: 0 <= i < |levels| ==> TotalOk(levels[i])
    }

    ghost predicate Sound()
      reads this, levels, queue`filled
    {
      Members() && Ordered() && Flat() && Live() && Totals()
    }

    /** No level is empty, except possibly the one at `hole`. */
    ghost predicate ValidBut(hole: Option<nat>)
      reads this, levels, queue`filled
    {
      match hole
      case None => Sound() && NonEmpty(|levels|)
      case Some(i) => Sound() && NonEmpty(i)
    }

    ghost predicate Valid()
      reads this, levels, queue`filled
    {
      ValidBut(None)
    }

    /** Where `price` is, or would be, in the sorted keys. */
    method Locate(price: Price) returns (i: nat, found: bool)
      requires Ordered()
      ensures i <= |levels| && (forall j :: 0 <= j < i ==> Better(side, levels[j].price, price))
      ensures forall j :: i <= j < |levels| && (found ==> i < j) ==> Better(side, price, levels[j].price)
      ensures found ==> i < |levels| && levels[i].price == price
    {
      i := 0;
      while i < |levels| && Better(side, levels[i].price, price)
        invariant i <= |levels| && forall j :: 0 <= j < i ==> Better(side, levels[j].price, price)
      {
        i := i + 1;
      }
      found := i < |levels| && levels[i].price == price;
    }

    /** Enter an empty level at key position `i`. */
    method Enter(i: nat, level: PriceLevel)
      requires Valid() && i <= |levels| && level !in levels
      requires level.home == this && level.orders == [] && level.totalQuantity == 0
      requires forall j :: 0 <= j < i ==> Better(side, levels[j].price, level.price)
      requires forall j :: i <= j < |levels| ==> Better(side, level.price, levels[j].price)
      modifies this`levels
      ensures ValidBut(Some(i))
      ensures levels == old(levels[..i]) + [level] + old(levels[i..])
    {
      hide Concat, SumRemaining, LevelMap.Members, LevelMap.Live, LevelMap.TotalOk;
      ghost var was := levels;
      levels := levels[..i] + [level] + levels[i..];
      EnteredConcat(was, level, i);
      Entered(this, was, i);
    }

    /** Queue `order` behind the orders of level `i`. */
    method Append(i: nat, order: Order)
      requires ValidBut(Some(i)) && i < |levels| && Absent(order, queue)
      requires order.side == side && order.symbol == symbol && order.price == Some(levels[i].price) && order.Remaining() > 0
      modifies this`queue, levels[i]
      ensures Valid()
      ensures var k := RankOf(old(queue), side, order.Px());
              queue == old(queue)[..k] + [order] + old(queue)[k..]
    {
      hide Concat, SumRemaining, DistinctIds, LevelMap.ValidBut, RankOf;
      ghost var front, back := BehindLevel(this, i, order);
      OthersDiffer(this, i);
      levels[i].Add(order);
      queue := front + [order] + back;
      AppendKeeps(this, i, order);
    }

    /** The key position of `price`, with a level entered there if it had none. */
    method Place(price: Price) returns (i: nat)
      requires Valid()
      modifies this`levels
      ensures ValidBut(Some(i)) && i < |levels| && levels[i].price == price
      ensures forall j :: 0 <= j < |levels| ==> levels[j] in old(levels) || fresh(levels[j])
    {
      var found;
      i, found := Locate(price);
      if !found {
        var level := new PriceLevel(price, this);
        EnteredMembers(levels, level, i);
        Enter(i, level);
      }
    }

    /** Queue `order` behind the orders already at its price. */
    method Rest(order: Order)
      requires Valid() && Absent(order, queue)
      requires order.side == side && order.symbol == symbol && order.price.Some? && order.Remaining() > 0
      modifies this, levels
      ensures Valid() && forall j :: 0 <= j < |levels| ==> levels[j] in old(levels) || fresh(levels[j])
      ensures var k := RankOf(old(queue), side, order.Px());
              queue == old(queue)[..k] + [order] + old(queue)[k..]
    {
      var i := Place(order.price.value);
      Append(i, order);
    }

    /** Fill `quantity` of the oldest order of the best level; a filled order leaves the queue. */
    method TakeFront(quantity: int)
      requires ValidBut(Some(0)) && levels != [] && levels[0].orders != []
      requires 0 < quantity <= levels[0].orders[0].Remaining()
      modifies this`queue, levels[0], levels[0].orders[0]
      ensures ValidBut(Some(0))
      ensures var maker := old(levels[0].orders[0]);
              && old(queue) != [] && old(queue)[0] == maker && maker.price == Some(levels[0].price)
              && maker.Rec() == AfterFill(old(maker.Rec()), quantity)
              && queue == (if maker.Remaining() == 0 then old(queue)[1..] else old(queue))
    {
      var level := levels[0];
      var resting := level.orders[0];
      FrontOfQueue(this);
      resting.filled := resting.filled + quantity;
      level.totalQuantity := level.totalQuantity - quantity;
      if resting.Remaining() == 0 {
        resting.status := Filled;
        level.orders := level.orders[1..];
        queue := queue[1..];
        PopKeeps(this);
      } else {
        resting.status := PartiallyFilled;
        ReduceKeepsTotals(this);
      }
    }

    /** Delete a level that has run empty. */
    method Drop(i: nat)
      requires i < |levels| && levels[i].orders == [] && ValidBut(Some(i))
      modifies this`levels
      ensures Valid() && levels == old(levels[..i]) + old(levels[i + 1..])
    {
      ghost var was := levels;
      levels := levels[..i] + levels[i + 1..];
      Dropped(this, was, i);
    }

    /** The first `depth` levels as rows of price, total and count. */
    method Rows(depth: nat) returns (rows: seq<Level>)
      requires Valid()
      ensures rows == Take(Levels(Recs(queue)), depth)
    {
      hide LevelMap.ValidBut, Levels, Concat;
      rows := [];
      var shown := Min(depth, |levels|);
      for i := 0 to shown
        invariant rows == RowsOf(levels)[..i]
      {
        rows := rows + [Level(levels[i].price, levels[i].totalQuantity, |levels[i].orders|)];
      }
      LevelsAreRows(this, 0);
      ConcatIsQueue(this);
      assert levels[0..] == levels;
    }

    /** Remove by id the order at position `k` of level `i`. */
    method Pluck(i: nat, id: OrderId, ghost front: seq<Order>, ghost k: nat, ghost back: seq<Order>) returns (order: Order?)
      requires Valid() && i < |levels| && k < |levels[i].orders| && levels[i].orders[k].id == id
      requires front == Concat(levels[..i]) && back == Concat(levels[i + 1..])
      modifies this`queue, levels[i]
      ensures ValidBut(Some(i)) && order == old(levels[i].orders[k])
      ensures queue == front + old(levels[i].orders[..k] + levels[i].orders[k + 1..]) + back
    {
      IdsInLevel(this, i, k);
      WithoutOne(front, levels[i].orders, k, back);
      ghost var k';
      order, k' := levels[i].Remove(id);
      queue := front + levels[i].orders + back;
      WithdrawKeeps(this, i, k);
    }

    /** Take the queue's order `at` out of its level, found by price and id; delete the level if it was the last one there. */
    method Withdraw(price: Price, id: OrderId, ghost at: nat) returns (order: Order?)
      requires Valid() && at < |queue| && queue[at].id == id && queue[at].price == Some(price)
      modifies this, levels
      ensures Valid() && forall l :: l in levels ==> l in old(levels)
      ensures order == old(queue)[at] && queue == Without(old(queue), at)
    {
      LevelOf(this, at);
      var i, found := Locate(price);
      if !found {
        return null;
      }
      ghost var front, k, back := PlaceInLevel(this, i, at);
      hide LevelMap.ValidBut, Concat, SumRemaining;
      order := Pluck(i, id, front, k, back);
      if levels[i].orders == [] {
        Drop(i);
      } else {
        NoHole(this, i);
      }
    }
  }

  lemma {:induction false} OthersDiffer(m: LevelMap, i: nat)
    requires m.ValidBut(Some(i)) && i < |m.levels|
    ensures forall j :: 0 <= j < |m.levels| && j != i ==> m.levels[j] != m.levels[i]
    ensures forall o :: o in m.queue ==> o.price.Some?
  {
  }

  lemma {:induction false} ConcatIsQueue(m: LevelMap)
    requires m.Valid()
    ensures Concat(m.levels) == m.queue
  {
  }

  lemma {:induction false} FrontOfQueue(m: LevelMap)
    requires m.ValidBut(Some(0)) && m.levels != [] && m.levels[0].orders != []
    ensures m.queue != [] && m.queue[0] == m.levels[0].orders[0]
    ensures m.queue[0].price == Some(m.levels[0].price)
    ensures forall l :: l in m.levels[1..] ==> l != m.levels[0]
  {
  }

  lemma {:induction false} StillDistinct(front: seq<Order>, order: Order, back: seq<Order>)
    requires DistinctIds(front + back) && Absent(order, front + back)
    ensures DistinctIds(front + [order] + back)
    ensures forall o :: o in front + [order] + back <==> o in front + back || o == order
  {
    var q, was := front + [order] + back, front + back;
    assert forall j :: 0 <= j < |q| ==> q[j] == if j < |front| then was[j] else if j == |front| then order else was[j - 1];
    forall j, k | 0 <= j < k < |q|
      ensures q[j].id != q[k].id
    {
      var j', k' := if j < |front| then j else j - 1, if k < |front| then k else k - 1;
      assert j != |front| ==> was[j'].id != order.id;
      assert k != |front| ==> was[k'].id != order.id;
    }
    assert q[|front|] == order;
    forall o | o in was
      ensures o in q
    {
      var j :| 0 <= j < |was| && was[j] == o;
      assert q[if j < |front| then j else j + 1] == o;
    }
  }

  /** Splitting the levels splits the queue, and prices on the two sides of a key are ordered. */
  lemma {:induction false} SplitRank(m: LevelMap, i: nat, price: Price)
    requires m.Members() && m.Ordered() && m.Flat() && i <= |m.levels|
    requires forall j :: 0 <= j < i ==> AtLeastAsGood(m.side, m.levels[j].price, price)
    requires forall j :: i <= j < |m.levels| ==> Better(m.side, price, m.levels[j].price)
    ensures m.queue == Concat(m.levels[..i]) + Concat(m.levels[i..])
    ensures RankOf(m.queue, m.side, price) == |Concat(m.levels[..i])|
  {
    SplitConcat(m.levels, i);
    var front, back := Concat(m.levels[..i]), Concat(m.levels[i..]);
    forall n | 0 <= n < |front|
      ensures AtLeastAsGood(m.side, m.queue[n].Px(), price)
    {
      assert front[n] in front;
      InSomeLevel(m.levels[..i], front[n]);
    }
    if back != [] {
      assert back[0] in back;
      InSomeLevel(m.levels[i..], back[0]);
      assert m.queue[|front|] == back[0];
    }
    RankOfIs(m.queue, m.side, price, |front|);
  }

  /** The queue, cut behind level `i`, is where an order at that level's price goes. */
  lemma {:induction false} BehindLevel(m: LevelMap, i: nat, order: Order) returns (front: seq<Order>, back: seq<Order>)
    requires m.ValidBut(Some(i)) && i < |m.levels| && Absent(order, m.queue) && order.price == Some(m.levels[i].price)
    ensures front == Concat(m.levels[..i]) + m.levels[i].orders && back == Concat(m.levels[i + 1..])
    ensures var k := RankOf(m.queue, m.side, order.Px()); front == m.queue[..k] && back == m.queue[k..]
    ensures DistinctIds(front + [order] + back)
    ensures forall o :: o in front + [order] + back <==> o in m.queue || o == order
  {
    hide Concat, RankOf, LevelMap.Live, LevelMap.Totals, LevelMap.NonEmpty;
    SplitRank(m, i + 1, m.levels[i].price);
    ConcatAround(m.levels, i);
    front, back := Concat(m.levels[..i]) + m.levels[i].orders, Concat(m.levels[i + 1..]);
    StillDistinct(front, order, back);
  }

  lemma {:induction false} EnteredConcat(levels: seq<PriceLevel>, level: PriceLevel, i: nat)
    requires i <= |levels| && level.orders == []
    ensures Concat(levels[..i] + [level] + levels[i..]) == Concat(levels)
  {
    SplitConcat(levels, i);
    assert levels[..i] + [level] + levels[i..] == levels[..i] + ([level] + levels[i..]);
    ConcatSplit(levels[..i], [level] + levels[i..]);
    ConcatSplit([level], levels[i..]);
    assert Concat([level]) == [];
  }

  lemma {:induction false} Entered(m: LevelMap, was: seq<PriceLevel>, i: nat)
    requires i <= |was| && |m.levels| == |was| + 1 && m.levels == was[..i] + [m.levels[i]] + was[i..]
    requires forall j :: 0 <= j < |was| ==> m.TotalOk(was[j]) && was[j].orders != [] && was[j].home == m
    requires forall j :: 0 <= j < |was| ==> forall o :: o in was[j].orders ==> o.price == Some(was[j].price)
    requires forall j, k :: 0 <= j < k < |was| ==> Better(m.side, was[j].price, was[k].price)
    requires m.levels[i].orders == [] && m.levels[i].totalQuantity == 0 && m.levels[i].home == m
    requires forall j :: 0 <= j < i ==> Better(m.side, was[j].price, m.levels[i].price)
    requires forall j :: i <= j < |was| ==> Better(m.side, m.levels[i].price, was[j].price)
    ensures m.Totals() && m.NonEmpty(i) && m.Ordered()
    ensures forall l :: l in m.levels ==> forall o :: o in l.orders ==> o.price == Some(l.price)
  {
    assert forall j :: 0 <= j < |m.levels| ==> m.levels[j] == if j < i then was[j] else if j == i then m.levels[i] else was[j - 1];
  }

  lemma {:induction false} EnteredMembers(was: seq<PriceLevel>, level: PriceLevel, i: nat)
    requires i <= |was|
    ensures var now := was[..i] + [level] + was[i..];
            now[i] == level && forall j :: 0 <= j < |now| ==> now[j] in was || now[j] == level
  {
  }

  lemma {:induction false} DroppedAt(was: seq<PriceLevel>, i: nat, j: nat)
    requires i < |was| && j < |was| - 1
    ensures (was[..i] + was[i + 1..])[j] == was[if j < i then j else j + 1]
  {
  }

  lemma {:induction false} DroppedOrdered(m: LevelMap, was: seq<PriceLevel>, i: nat)
    requires i < |was| && m.levels == was[..i] + was[i + 1..]
    requires forall j :: 0 <= j < |was| ==> was[j].home == m
    requires forall j, k :: 0 <= j < k < |was| ==> Better(m.side, was[j].price, was[k].price)
    ensures m.Ordered()
  {
    hide Better;
    forall j | 0 <= j < |m.levels|
      ensures m.levels[j].home == m
    {
      DroppedAt(was, i, j);
    }
    forall j, k | 0 <= j < k < |m.levels|
      ensures Better(m.side, m.levels[j].price, m.levels[k].price)
    {
      DroppedAt(was, i, j);
      DroppedAt(was, i, k);
    }
  }

  lemma {:induction false} Dropped(m: LevelMap, was: seq<PriceLevel>, i: nat)
    requires i < |was| && was[i].orders == [] && m.levels == was[..i] + was[i + 1..] && Concat(was) == m.queue
    requires forall j :: 0 <= j < |was| ==> m.TotalOk(was[j]) && was[j].home == m && (j != i ==> was[j].orders != [])
    requires forall l :: l in was ==> forall o :: o in l.orders ==> o.price == Some(l.price)
    requires forall j, k :: 0 <= j < k < |was| ==> Better(m.side, was[j].price, was[k].price)
    ensures m.Totals() && m.NonEmpty(|m.levels|) && m.Ordered() && m.Flat()
  {
    hide Concat, SumRemaining, Better, LevelMap.TotalOk;
    DroppedOrdered(m, was, i);
    hide LevelMap.Ordered;
    DroppedConcat(was, i);
    forall j | 0 <= j < |m.levels|
      ensures m.levels[j] in was && m.TotalOk(m.levels[j]) && m.levels[j].orders != []
    {
      DroppedAt(was, i, j);
    }
  }

  lemma {:induction false} DroppedConcat(was: seq<PriceLevel>, i: nat)
    requires i < |was| && was[i].orders == []
    ensures Concat(was[..i] + was[i + 1..]) == Concat(was)
  {
    ConcatAround(was, i);
    ConcatSplit(was[..i], was[i + 1..]);
  }

  twostate lemma {:induction false} SameConcat(levels: seq<PriceLevel>)
    requires forall l :: l in levels ==> l.orders == old(l.orders)
    ensures Concat(levels) == old(Concat(levels))
  {
    if levels != [] {
      SameConcat(levels[1..]);
    }
  }

  twostate lemma {:induction false} SameSum(orders: seq<Order>)
    requires forall o :: o in orders ==> o.filled == old(o.filled)
    ensures SumRemaining(orders) == old(SumRemaining(orders))
  {
    if orders != [] {
      SameSum(orders[1..]);
    }
  }

  /** If only orders at `price` changed, a level at another price keeps its total. */
  twostate lemma {:induction false} OtherKeepsTotal(m: LevelMap, new i: nat, new price: Price)
    requires i < |m.levels| && m.levels == old(m.levels) && old(m.TotalOk(m.levels[i]))
    requires m.levels[i].orders == old(m.levels[i].orders) && m.levels[i].totalQuantity == old(m.levels[i].totalQuantity)
    requires forall o :: o in m.levels[i].orders ==> o.price == Some(m.levels[i].price)
    requires m.levels[i].price != price
    requires forall o :: o in old(m.queue) && o.price != Some(price) ==> o in m.queue && o.filled == old(o.filled)
    ensures m.TotalOk(m.levels[i])
  {
    var os := m.levels[i].orders;
    assert forall j :: 0 <= j < |os| ==> os[j] in os && os[j] in old(m.queue);
    SameSum(os);
  }

  twostate lemma {:induction false} AppendKeepsFlat(m: LevelMap, new i: nat, new order: Order)
    requires old(m.Flat() && m.NonEmpty(i)) && m.levels == old(m.levels) && i < |m.levels|
    requires order.price == Some(m.levels[i].price)
    requires m.levels[i].orders == old(m.levels[i].orders) + [order]
    requires forall j :: 0 <= j < |m.levels| && j != i ==> m.levels[j].orders == old(m.levels[j].orders)
    requires m.queue == old(Concat(m.levels[..i]) + m.levels[i].orders) + [order] + old(Concat(m.levels[i + 1..]))
    ensures m.Flat() && m.NonEmpty(|m.levels|)
  {
    SameConcat(m.levels[..i]);
    SameConcat(m.levels[i + 1..]);
    ConcatAround(m.levels, i);
    var a, b := Concat(m.levels[..i]), old(m.levels[i].orders);
    assert a + (b + [order]) == a + b + [order];
    forall l, o | l in m.levels && o in l.orders
      ensures o.price == Some(l.price)
    {
      if l == m.levels[i] {
      } else {
        var j :| 0 <= j < |m.levels| && m.levels[j] == l;
      }
    }
  }

  twostate lemma {:induction false} AppendKeepsTotals(m: LevelMap, new i: nat, new order: Order)
    requires old(m.Totals()) && m.levels == old(m.levels) && i < |m.levels| && m.Ordered() && m.Flat()
    requires m.levels[i].orders == old(m.levels[i].orders) + [order]
    requires m.levels[i].totalQuantity == old(m.levels[i].totalQuantity) + order.Remaining()
    requires forall j :: 0 <= j < |m.levels| && j != i ==> m.levels[j].orders == old(m.levels[j].orders) && m.levels[j].totalQuantity == old(m.levels[j].totalQuantity)
    requires order in m.queue && forall o :: o in old(m.queue) ==> o in m.queue && o.filled == old(o.filled)
    ensures m.Totals()
  {
    forall j | 0 <= j < |m.levels| && j != i
      ensures m.TotalOk(m.levels[j])
    {
      OtherKeepsTotal(m, j, m.levels[i].price);
    }
    var os := old(m.levels[i].orders);
    assert forall j :: 0 <= j < |os| ==> os[j] in old(m.queue);
    SumRemainingConcat(os, [order]);
    SameSum(os);
  }

  twostate lemma {:induction false} AppendKeepsMembers(m: LevelMap, new order: Order)
    requires old(m.Members() && m.Live()) && DistinctIds(m.queue)
    requires order.side == m.side && order.symbol == m.symbol && order.price.Some? && order.Remaining() > 0
    requires forall o :: o in m.queue <==> o in old(m.queue) || o == order
    requires forall o :: o in old(m.queue) ==> o.filled == old(o.filled)
    ensures m.Members() && m.Live()
  {
  }

  twostate lemma {:induction false} AppendKeeps(m: LevelMap, new i: nat, new order: Order)
    requires old(m.ValidBut(Some(i))) && m.levels == old(m.levels) && i < |m.levels| && DistinctIds(m.queue)
    requires order.side == m.side && order.symbol == m.symbol && order.price == Some(m.levels[i].price) && order.Remaining() > 0
    requires m.levels[i].orders == old(m.levels[i].orders) + [order]
    requires m.levels[i].totalQuantity == old(m.levels[i].totalQuantity) + order.Remaining()
    requires forall j :: 0 <= j < |m.levels| && j != i ==> m.levels[j].orders == old(m.levels[j].orders) && m.levels[j].totalQuantity == old(m.levels[j].totalQuantity)
    requires m.queue == old(Concat(m.levels[..i]) + m.levels[i].orders) + [order] + old(Concat(m.levels[i + 1..]))
    requires forall o :: o in m.queue <==> o in old(m.queue) || o == order
    requires forall o :: o in old(m.queue) ==> o.filled == old(o.filled)
    ensures m.Valid()
  {
    hide Concat, SumRemaining, DistinctIds, LevelMap.TotalOk;
    AppendKeepsMembers(m, order);
    hide LevelMap.Members, LevelMap.Live;
    AppendKeepsFlat(m, i, order);
    hide LevelMap.Flat;
    AppendKeepsTotals(m, i, order);
    hide LevelMap.Totals;
  }

  twostate lemma {:induction false} PopKeepsFlat(m: LevelMap)
    requires old(m.Members() && m.Ordered() && m.Flat() && m.NonEmpty(0)) && m.levels == old(m.levels) && m.levels != []
    requires old(m.levels[0].orders) != [] && m.levels[0].orders == old(m.levels[0].orders)[1..]
    requires m.queue == old(m.queue)[1..]
    requires forall l :: l in m.levels[1..] ==> l.orders == old(l.orders)
    ensures m.Members() && m.Ordered() && m.Flat() && m.NonEmpty(0)
  {
    SameConcat(m.levels[1..]);
    var was := old(m.levels[0].orders);
    assert (was + Concat(m.levels[1..]))[1..] == was[1..] + Concat(m.levels[1..]);
  }

  twostate lemma {:induction false} PopKeepsLive(m: LevelMap)
    requires old(m.Live()) && old(m.queue) != [] && m.queue == old(m.queue)[1..]
    requires forall o :: o in old(m.queue) && o in m.queue ==> o.filled == old(o.filled)
    ensures m.Live()
  {
    forall o | o in m.queue
      ensures o.Remaining() > 0
    {
      assert o in old(m.queue);
    }
  }

  twostate lemma {:induction false} PopKeepsFirst(m: LevelMap)
    requires m.levels != [] && m.levels == old(m.levels) && m.queue == m.levels[0].orders + Concat(m.levels[1..])
    requires old(m.TotalOk(m.levels[0]))
    requires old(m.levels[0].orders) != [] && m.levels[0].orders == old(m.levels[0].orders)[1..]
    requires forall o :: o in m.levels[0].orders ==> o.filled == old(o.filled)
    requires m.levels[0].totalQuantity == old(m.levels[0].totalQuantity) - old(m.levels[0].orders[0].Remaining())
    ensures m.TotalOk(m.levels[0])
  {
    var os := m.levels[0].orders;
    hide Concat;
    assert forall i :: 0 <= i < |os| ==> m.queue[i] == os[i];
    assert forall o :: o in os ==> o in m.queue;
    SameSum(os);
  }

  twostate lemma {:induction false} PopKeepsTotals(m: LevelMap)
    requires old(m.Totals()) && m.levels == old(m.levels) && m.levels != []
    requires m.Ordered() && m.Flat()
    requires old(m.levels[0].orders) != [] && m.levels[0].orders == old(m.levels[0].orders)[1..]
    requires old(m.queue) != [] && m.queue == old(m.queue)[1..]
    requires old(m.queue)[0].price == Some(m.levels[0].price)
    requires forall l :: l in m.levels[1..] ==> l.orders == old(l.orders) && l.totalQuantity == old(l.totalQuantity)
    requires forall o :: o in m.queue ==> o.filled == old(o.filled)
    requires m.levels[0].totalQuantity == old(m.levels[0].totalQuantity) - old(m.levels[0].orders[0].Remaining())
    ensures m.Totals()
  {
    hide SumRemaining, LevelMap.TotalOk;
    assert m.queue == m.levels[0].orders + Concat(m.levels[1..]);
    assert forall o :: o in m.levels[0].orders ==> o in m.queue;
    PopKeepsFirst(m);
    hide Concat;
    forall i | 1 <= i < |m.levels|
      ensures m.TotalOk(m.levels[i])
    {
      assert m.levels[i] == m.levels[1..][i - 1];
      OtherKeepsTotal(m, i, m.levels[0].price);
    }
  }

  twostate lemma {:induction false} PopKeeps(m: LevelMap)
    requires old(m.ValidBut(Some(0))) && m.levels == old(m.levels) && m.levels != []
    requires old(m.levels[0].orders) != [] && m.levels[0].orders == old(m.levels[0].orders)[1..]
    requires m.queue == old(m.queue)[1..]
    requires forall l :: l in m.levels[1..] ==> l.orders == old(l.orders) && l.totalQuantity == old(l.totalQuantity)
    requires forall o :: o in m.queue ==> o.filled == old(o.filled)
    requires m.levels[0].totalQuantity == old(m.levels[0].totalQuantity) - old(m.levels[0].orders[0].Remaining())
    ensures m.ValidBut(Some(0))
  {
    hide SumRemaining, LevelMap.TotalOk;
    PopKeepsFlat(m);
    PopKeepsLive(m);
    FirstPrice(m);
    hide Concat;
    PopKeepsTotals(m);
  }

  twostate lemma {:induction false} FirstPrice(m: LevelMap)
    requires old(m.Flat()) && m.levels == old(m.levels) && m.levels != [] && old(m.levels[0].orders) != []
    ensures old(m.queue) != [] && old(m.queue)[0] == old(m.levels[0].orders)[0] && old(m.queue)[0].price == Some(m.levels[0].price)
  {
  }

  twostate lemma {:induction false} ReduceKeepsTotals(m: LevelMap)
    requires old(m.ValidBut(Some(0))) && m.levels == old(m.levels) && m.queue == old(m.queue)
    requires m.levels != [] && m.queue != []
    requires forall l :: l in m.levels ==> l.orders == old(l.orders)
    requires m.levels[0].orders != [] && m.queue[0] == m.levels[0].orders[0]
    requires forall l :: l in m.levels[1..] ==> l.totalQuantity == old(l.totalQuantity)
    requires forall o :: o in m.queue && o != m.queue[0] ==> o.filled == old(o.filled)
    requires m.queue[0].Remaining() > 0
    requires m.levels[0].totalQuantity - m.queue[0].Remaining() == old(m.levels[0].totalQuantity) - old(m.queue[0].Remaining())
    ensures m.ValidBut(Some(0))
  {
    SameConcat(m.levels);
    var first := m.levels[0];
    forall i | 1 <= i < |m.levels|
      ensures m.TotalOk(m.levels[i])
    {
      assert m.levels[i] == m.levels[1..][i - 1];
      OtherKeepsTotal(m, i, first.price);
    }
    assert m.queue == first.orders + Concat(m.levels[1..]);
    assert forall i :: 1 <= i < |first.orders| ==> first.orders[i] == m.queue[i] && m.queue[i] != m.queue[0];
    SameSum(first.orders[1..]);
  }

  lemma {:induction false} SamePriceSameLevel(m: LevelMap, i: nat, j: nat)
    requires m.Ordered() && i < |m.levels| && j < |m.levels| && m.levels[i].price == m.levels[j].price
    ensures i == j
  {
  }

  lemma {:induction false} HasLevel(m: LevelMap, at: nat) returns (i: nat)
    requires m.Flat() && at < |m.queue|
    ensures i < |m.levels| && m.queue[at] in m.levels[i].orders && Some(m.levels[i].price) == m.queue[at].price
  {
    var o := m.queue[at];
    assert o in Concat(m.levels);
    InSomeLevel(m.levels, o);
    hide Concat;
    var l :| l in m.levels && o in l.orders;
    i :| 0 <= i < |m.levels| && m.levels[i] == l;
  }

  /** Every queued order has a level, at its price. */
  lemma {:induction false} LevelOf(m: LevelMap, at: nat)
    requires m.Valid() && at < |m.queue|
    ensures exists i :: 0 <= i < |m.levels| && Some(m.levels[i].price) == m.queue[at].price
    ensures forall i :: 0 <= i < |m.levels| && Some(m.levels[i].price) == m.queue[at].price ==> m.queue[at] in m.levels[i].orders
  {
    hide LevelMap.Members, LevelMap.Ordered, LevelMap.Flat, LevelMap.Live, LevelMap.Totals, LevelMap.NonEmpty;
    var i := HasLevel(m, at);
    forall j | 0 <= j < |m.levels| && Some(m.levels[j].price) == m.queue[at].price
      ensures m.queue[at] in m.levels[j].orders
    {
      SamePriceSameLevel(m, i, j);
    }
  }

  lemma {:induction false} NoHole(m: LevelMap, i: nat)
    requires m.ValidBut(Some(i)) && i < |m.levels| && m.levels[i].orders != []
    ensures m.Valid()
  {
  }

  lemma {:induction false} InMiddle(front: seq<Order>, os: seq<Order>, back: seq<Order>, at: nat)
    requires DistinctIds(front + os + back) && at < |front + os + back| && (front + os + back)[at] in os
    ensures |front| <= at < |front| + |os| && os[at - |front|] == (front + os + back)[at]
  {
    var k :| 0 <= k < |os| && os[k] == (front + os + back)[at];
    assert (front + os + back)[|front| + k] == os[k];
  }

  lemma {:induction false} IdsInLevel(m: LevelMap, i: nat, k: nat)
    requires m.Valid() && i < |m.levels| && k < |m.levels[i].orders|
    ensures m.queue == Concat(m.levels[..i]) + m.levels[i].orders + Concat(m.levels[i + 1..])
    ensures DistinctIds(m.queue) && DistinctIds(m.levels[i].orders)
    ensures m.levels[i].orders[k].price == Some(m.levels[i].price)
  {
    hide Concat, LevelMap.Live, LevelMap.Totals, LevelMap.Ordered, LevelMap.NonEmpty, DistinctIds;
    ConcatAround(m.levels, i);
    QueueDistinct(m);
    hide LevelMap.Members;
    PartDistinct(Concat(m.levels[..i]), m.levels[i].orders, Concat(m.levels[i + 1..]));
    assert m.levels[i].orders[k] in m.levels[i].orders;
  }

  lemma {:induction false} QueueDistinct(m: LevelMap)
    requires m.Members()
    ensures DistinctIds(m.queue)
  {
  }

  lemma {:induction false} PartDistinct(front: seq<Order>, os: seq<Order>, back: seq<Order>)
    requires DistinctIds(front + os + back)
    ensures DistinctIds(os)
  {
    var q := front + os + back;
    assert forall j :: 0 <= j < |os| ==> os[j] == q[|front| + j];
  }

  /** The position of queue order `at` inside its level, and the queue around that level. */
  lemma {:induction false} PlaceInLevel(m: LevelMap, i: nat, at: nat) returns (front: seq<Order>, k: nat, back: seq<Order>)
    requires m.Valid() && at < |m.queue| && i < |m.levels| && Some(m.levels[i].price) == m.queue[at].price
    ensures front == Concat(m.levels[..i]) && back == Concat(m.levels[i + 1..])
    ensures k < |m.levels[i].orders| && m.levels[i].orders[k] == m.queue[at]
    ensures front + (m.levels[i].orders[..k] + m.levels[i].orders[k + 1..]) + back == Without(m.queue, at)
  {
    hide LevelMap.ValidBut, Concat, DistinctIds;
    LevelOf(m, at);
    IdsInLevel(m, i, 0);
    var os := m.levels[i].orders;
    front, back := Concat(m.levels[..i]), Concat(m.levels[i + 1..]);
    InMiddle(front, os, back, at);
    k := at - |front|;
    WithoutOne(front, os, k, back);
  }

  lemma {:induction false} WithoutOne(front: seq<Order>, os: seq<Order>, k: nat, back: seq<Order>)
    requires k < |os| && DistinctIds(front + os + back)
    ensures var q, at := front + os + back, |front| + k;
            var q' := front + (os[..k] + os[k + 1..]) + back;
            q' == q[..at] + q[at + 1..] && DistinctIds(q') && forall o :: o in q' <==> o in q && o != os[k]
  {
    var q, at := front + os + back, |front| + k;
    var q' := front + (os[..k] + os[k + 1..]) + back;
    assert q' == q[..at] + q[at + 1..];
    assert forall i :: 0 <= i < |q'| ==> q'[i] == if i < at then q[i] else q[i + 1];
    assert q[at] == os[k];
  }

  twostate lemma {:induction false} WithdrawKeepsFlat(m: LevelMap, new i: nat)
    requires old(m.Flat() && m.NonEmpty(|m.levels|)) && m.levels == old(m.levels) && i < |m.levels|
    requires forall o :: o in m.levels[i].orders ==> o in old(m.levels[i].orders)
    requires forall j :: 0 <= j < |m.levels| && j != i ==> m.levels[j].orders == old(m.levels[j].orders)
    requires m.queue == old(Concat(m.levels[..i])) + m.levels[i].orders + old(Concat(m.levels[i + 1..]))
    ensures m.Flat() && m.NonEmpty(i)
  {
    SameConcat(m.levels[..i]);
    SameConcat(m.levels[i + 1..]);
    ConcatAround(m.levels, i);
    hide Concat;
    forall j | 0 <= j < |m.levels|
      ensures forall o :: o in m.levels[j].orders ==> o.price == Some(m.levels[j].price)
    {
      assert m.levels[j] in old(m.levels);
    }
  }

  twostate lemma {:induction false} WithdrawKeepsTotals(m: LevelMap, new i: nat, new k: nat)
    requires old(m.Totals()) && m.levels == old(m.levels) && i < |m.levels| && k < |old(m.levels[i].orders)|
    requires m.Ordered() && m.Flat()
    requires m.levels[i].orders == old(m.levels[i].orders)[..k] + old(m.levels[i].orders)[k + 1..]
    requires m.levels[i].totalQuantity == old(m.levels[i].totalQuantity) - old(m.levels[i].orders)[k].Remaining()
    requires forall j :: 0 <= j < |m.levels| && j != i ==> m.levels[j].orders == old(m.levels[j].orders) && m.levels[j].totalQuantity == old(m.levels[j].totalQuantity)
    requires forall o :: o in old(m.queue) ==> o.filled == old(o.filled)
    requires forall o :: o in old(m.queue) && o != old(m.levels[i].orders)[k] ==> o in m.queue
    requires old(m.levels[i].orders)[k].price == Some(m.levels[i].price)
    requires forall o :: o in m.levels[i].orders ==> o in m.queue
    ensures m.Totals()
  {
    forall j | 0 <= j < |m.levels| && j != i
      ensures m.TotalOk(m.levels[j])
    {
      OtherKeepsTotal(m, j, m.levels[i].price);
    }
    var os := old(m.levels[i].orders);
    assert forall j :: 0 <= j < |os| ==> os[j] in old(m.queue);
    SameSum(os);
    SumWithout(os, k);
    assert forall j :: 0 <= j < |m.levels[i].orders| ==> m.levels[i].orders[j] in m.levels[i].orders;
  }

  lemma {:induction false} SumWithout(os: seq<Order>, k: nat)
    requires k < |os|
    ensures SumRemaining(os[..k] + os[k + 1..]) == SumRemaining(os) - os[k].Remaining()
  {
    assert os == os[..k] + ([os[k]] + os[k + 1..]);
    SumRemainingConcat(os[..k], [os[k]] + os[k + 1..]);
    SumRemainingConcat(os[..k], os[k + 1..]);
  }

  twostate lemma {:induction false} WithdrawKeepsMembers(m: LevelMap, new i: nat, new k: nat)
    requires old(m.Members() && m.Live()) && m.levels == old(m.levels) && i < |m.levels| && k < |old(m.levels[i].orders)|
    requires forall o :: o in m.queue <==> o in old(m.queue) && o != old(m.levels[i].orders)[k]
    requires DistinctIds(m.queue)
    requires forall o :: o in old(m.queue) ==> o.filled == old(o.filled)
    ensures m.Members() && m.Live()
  {
  }

  twostate lemma {:induction false} WithdrawKeeps(m: LevelMap, new i: nat, new k: nat)
    requires old(m.Valid()) && m.levels == old(m.levels) && i < |m.levels| && k < |old(m.levels[i].orders)|
    requires m.levels[i].orders == old(m.levels[i].orders)[..k] + old(m.levels[i].orders)[k + 1..]
    requires m.levels[i].totalQuantity == old(m.levels[i].totalQuantity) - old(m.levels[i].orders)[k].Remaining()
    requires forall j :: 0 <= j < |m.levels| && j != i ==> m.levels[j].orders == old(m.levels[j].orders) && m.levels[j].totalQuantity == old(m.levels[j].totalQuantity)
    requires m.queue == old(Concat(m.levels[..i])) + m.levels[i].orders + old(Concat(m.levels[i + 1..]))
    requires forall o :: o in m.queue <==> o in old(m.queue) && o != old(m.levels[i].orders)[k]
    requires DistinctIds(m.queue) && old(m.levels[i].orders)[k].price == Some(m.levels[i].price)
    requires forall o :: o in old(m.queue) ==> o.filled == old(o.filled)
    ensures m.ValidBut(Some(i))
  {
    hide Concat, SumRemaining, LevelMap.TotalOk;
    WithdrawKeepsFlat(m, i);
    WithdrawKeepsMembers(m, i, k);
    hide LevelMap.Members, LevelMap.Live;
    WithdrawKeepsTotals(m, i, k);
    hide LevelMap.Flat, LevelMap.Totals;
  }

  ghost function RowsOf(levels: seq<PriceLevel>): (rows: seq<Level>)
    reads levels
    ensures |rows| == |levels|
    ensures forall i :: 0 <= i < |levels| ==> rows[i] == Level(levels[i].price, levels[i].totalQuantity, |levels[i].orders|)
  {
    seq(|levels|, i requires 0 <= i < |levels| reads levels => Level(levels[i].price, levels[i].totalQuantity, |levels[i].orders|))
  }

  lemma {:induction false} VolumeIsSum(orders: seq<Order>)
    ensures Volume(Recs(orders)) == SumRemaining(orders)
  {
    if orders != [] {
      VolumeIsSum(orders[1..]);
      assert Recs(orders)[1..] == Recs(orders[1..]);
    }
  }

  lemma {:induction false} NoRows(levels: seq<PriceLevel>)
    requires levels == []
    ensures Levels(Recs(Concat(levels))) == RowsOf(levels)
  {
  }

  /** The levels are exactly the runs of equal price in the queue. */
  lemma {:induction false} LevelsAreRows(m: LevelMap, i: nat)
    requires m.Valid() && i <= |m.levels|
    ensures Levels(Recs(Concat(m.levels[i..]))) == RowsOf(m.levels[i..])
    decreases |m.levels| - i
  {
    hide LevelMap.ValidBut, Levels, SumRemaining, Volume;
    if i < |m.levels| {
      LevelsAreRows(m, i + 1);
      var l, rest := m.levels[i], Concat(m.levels[i + 1..]);
      assert m.levels[i..] == [l] + m.levels[i + 1..];
      NextPrice(m, i);
      FirstRun(l.orders, rest, l.price);
      VolumeIsSum(l.orders);
      assert RowsOf(m.levels[i..]) == [Level(l.price, l.totalQuantity, |l.orders|)] + RowsOf(m.levels[i + 1..]);
    } else {
      NoRows(m.levels[i..]);
    }
  }

  lemma {:induction false} NextPrice(m: LevelMap, i: nat)
    requires m.Valid() && i < |m.levels|
    ensures var rest := Concat(m.levels[i + 1..]); rest != [] ==> rest[0].Px() != m.levels[i].price
    ensures m.levels[i].orders != [] && forall o :: o in m.levels[i].orders ==> o.Px() == m.levels[i].price
    ensures m.levels[i].totalQuantity == SumRemaining(m.levels[i].orders)
  {
    var rest := Concat(m.levels[i + 1..]);
    if rest != [] {
      assert rest[0] in rest;
      InSomeLevel(m.levels[i + 1..], rest[0]);
    }
    assert m.TotalOk(m.levels[i]);
  }

  lemma {:induction false} FirstRun(orders: seq<Order>, rest: seq<Order>, price: Price)
    requires orders != [] && (forall o :: o in orders ==> o.Px() == price) && (rest != [] ==> rest[0].Px() != price)
    ensures Levels(Recs(orders + rest)) == [Level(price, Volume(Recs(orders)), |orders|)] + Levels(Recs(rest))
  {
    var q := Recs(orders + rest);
    assert forall i :: 0 <= i < |orders| ==> orders[i] in orders;
    RunIs(q, price, |orders|);
    assert q[..|orders|] == Recs(orders) && q[|orders|..] == Recs(rest);
  }
}
