/** One side of the C++ book: an ordered map from price to intrusive list. */
module NativeMap {
  import opened Domain
  import opened BookSpec
  import opened NativeLevels
  import opened Rows

  ghost predicate DistinctIds(nodes: seq<OrderNode>) {
    forall i, j :: 0 <= i < j < |nodes| ==> nodes[i].id != nodes[j].id
  }

  ghost predicate Absent(node: OrderNode, nodes: seq<OrderNode>) {
    forall i :: 0 <= i < |nodes| ==> nodes[i].id != node.id
  }

  ghost predicate AtPrice(side: Side, symbol: Symbol, price: Price, row: seq<OrderNode>) {
    forall k :: 0 <= k < |row| ==> row[k].side == side && row[k].symbol == symbol && row[k].price == price
  }

  /** The map's keys are sorted, best price first, and every node is under its own price. */
  ghost predicate Keyed(side: Side, symbol: Symbol, home: object, levels: seq<PriceLevel>, rows: seq<seq<OrderNode>>) {
    && |levels| == |rows|
    && (forall i :: 0 <= i < |levels| ==> levels[i].home == home && AtPrice(side, symbol, levels[i].price, rows[i]))
    && (forall i, j :: 0 <= i < j < |levels| ==> Better(side, levels[i].price, levels[j].price))
  }

  ghost predicate LevelOk(level: PriceLevel, row: seq<OrderNode>)
    reads level, row
  {
    level.nodes == row && level.Sound()
  }

  /** Behind the first `k` orders is where a newcomer at `price` queues. */
  ghost predicate IsRank(queue: seq<OrderNode>, side: Side, price: Price, k: nat) {
    && k <= |queue|
    && (forall i :: 0 <= i < k ==> AtLeastAsGood(side, queue[i].price, price))
    && (k < |queue| ==> !AtLeastAsGood(side, queue[k].price, price))
  }

  class NodeMap {
    const side: Side
    ghost const symbol: Symbol
    var levels: seq<PriceLevel>
    /** The nodes of each level, and all of them in one queue. */
    ghost var rows: seq<seq<OrderNode>>
    ghost var queue: seq<OrderNode>

    constructor (side: Side, ghost symbol: Symbol)
      ensures this.side == side && this.symbol == symbol
      ensures levels == [] && queue == [] && Valid()
    {
      this.side, this.symbol := side, symbol;
      levels, rows, queue := [], [], [];
    }

    ghost predicate Shaped()
      reads this
    {
      && Keyed(side, symbol, this, levels, rows)
      && queue == Flatten(rows) && DistinctIds(queue)
    }

    ghost predicate RowOk(i: nat)
      requires i < |levels| && i < |rows|
      reads this, levels, queue
    {
      (forall k :: 0 <= k < |rows[i]| ==> rows[i][k] in queue) && LevelOk(levels[i], rows[i])
    }

    /** No level is empty, except possibly the one at `hole`. */
    ghost predicate ValidBut(hole: Option<nat>)
      reads this, levels, queue
    {
      && Shaped()
      && (forall i :: 0 <= i < |levels| ==> RowOk(i))
      && (forall i :: 0 <= i < |rows| && Some(i) != hole ==> rows[i] != [])
    }

    ghost predicate Valid()
      reads this, levels, queue
    {
      ValidBut(None)
    }

    /** Where `price` is, or would be, in the sorted keys. */
    method Locate(price: Price) returns (i: nat, found: bool)
      requires forall i, j :: 0 <= i < j < |levels| ==> Better(side, levels[i].price, levels[j].price)
      ensures i <= |levels| && (forall j :: 0 <= j < i ==> Better(side, levels[j].price, price))
      ensures forall j :: i <= j < |levels| && (found ==> i < j) ==> Better(side, price, levels[j].price)
      ensures found ==> i < |levels| && levels[i].price == price
    {
      i := 0;
      while i < |levels| && Better(side, levels[i].price, price)
        invariant i <= |levels| && forall j :: 0 <= j < i ==> Better(side, levels[j].price, price)
      {
        i := i + 1;
      }
      found := i < |levels| && levels[i].price == price;
    }

    /** Fill `quantity` of the oldest order of the best level; a filled order leaves the queue. */
    method TakeFront(quantity: Word)
      requires ValidBut(Some(0)) && levels != [] && rows[0] != []
      requires 0 < quantity <= rows[0][0].Remaining()
      modifies `rows, `queue, levels[0], queue
      ensures ValidBut(Some(0))
      ensures var maker := old(rows[0][0]);
              && old(queue) != [] && old(queue)[0] == maker && maker.price == levels[0].price
              && maker.Rec() == AfterFill(old(maker.Rec()), quantity)
              && queue == (if maker.Rec().Remaining() == 0 then old(queue)[1..] else old(queue))
      ensures forall i :: 1 <= i < |old(queue)| ==> old(queue)[i].Rec() == old(queue[i].Rec())
      ensures levels[0].nodes == rows[0]
    {
      hide PriceLevel.Sound, LevelOk, DistinctIds, Keyed, NodeMap.RowOk, Flatten;
      Around(this, 0);
      FirstRow(this);
      ghost var was := rows;
      levels[0].FillHead(quantity);
      IsOk(levels[0]);
      rows := rows[0 := levels[0].nodes];
      queue := if |rows[0]| < |was[0]| then queue[1..] else queue;
      FirstRowChanged(was, rows[0]);
      RowChanged(this, was, 0);
    }

    /** Queue `node` behind the orders of level `i`; `k` is its place in the whole queue. */
    method Append(i: nat, node: OrderNode) returns (ghost k: nat)
      requires ValidBut(Some(i)) && i < |levels| && Absent(node, queue)
      requires node.side == side && node.symbol == symbol && node.price == levels[i].price && node.Live()
      modifies `rows, `queue, levels[i], rows[i]`next, node`prev, node`next
      ensures Valid()
      ensures IsRank(old(queue), side, node.price, k) && queue == old(queue)[..k] + [node] + old(queue)[k..]
    {
      hide PriceLevel.Sound, LevelOk, DistinctIds, Absent, Keyed, IsRank, NodeMap.RowOk, Flatten;
      Around(this, i);
      k := BehindRow(this, i, node);
      ghost var was := rows;
      Push(levels[i], node);
      rows := rows[i := levels[i].nodes];
      queue := queue[..k] + [node] + queue[k..];
      RowChanged(this, was, i);
    }

    /** Unlink the order at position `k` of level `i`. */
    method Pluck(i: nat, node: OrderNode, ghost k: nat, ghost at: nat)
      requires Valid() && i < |levels| && k < |rows[i]| && rows[i][k] == node && at == |Flatten(rows[..i])| + k
      modifies `rows, `queue, levels[i], rows[i]`prev, rows[i]`next
      ensures ValidBut(Some(i)) && rows == old(rows)[i := Without(old(rows[i]), k)]
      ensures at < |old(queue)| && queue == Without(old(queue), at)
    {
      hide PriceLevel.Sound, LevelOk, DistinctIds, Keyed, NodeMap.RowOk, Flatten, Without;
      Around(this, i);
      TakenOut(this, i, k);
      ghost var was := rows;
      Pull(levels[i], node, k);
      rows := rows[i := levels[i].nodes];
      queue := Without(queue, at);
      RowChanged(this, was, i);
    }

    /** Enter an empty level at key position `i`. */
    method Enter(i: nat, level: PriceLevel)
      requires Valid() && i <= |levels| && level.home == this && level.nodes == [] && level.Sound()
      requires forall j :: 0 <= j < i ==> Better(side, levels[j].price, level.price)
      requires forall j :: i <= j < |levels| ==> Better(side, level.price, levels[j].price)
      modifies `levels, `rows
      ensures ValidBut(Some(i)) && rows == old(rows[..i]) + [[]] + old(rows[i..])
      ensures levels == old(levels[..i]) + [level] + old(levels[i..])
    {
      hide PriceLevel.Sound, LevelOk, Keyed, DistinctIds, Flatten, NodeMap.RowOk;
      Parts(this, None);
      IsOk(level);
      Entered(this, i, level);
      rows := rows[..i] + [[]] + rows[i..];
      levels := levels[..i] + [level] + levels[i..];
      Rebuilt(this, Some(i));
    }

    /** Delete a level that has run empty. */
    method Drop(i: nat)
      requires ValidBut(Some(i)) && i < |levels| && rows[i] == []
      modifies `levels, `rows
      ensures Valid() && levels == Without(old(levels), i)
    {
      hide PriceLevel.Sound, LevelOk, Keyed, DistinctIds, Flatten, NodeMap.RowOk;
      Parts(this, Some(i));
      Dropped(this, i);
      levels := Without(levels, i);
      rows := Without(rows, i);
      Rebuilt(this, None);
    }

    /** The key position of `price`, with a level entered there if it had none. */
    method Place(price: Price) returns (i: nat)
      requires Valid()
      modifies `levels, `rows
      ensures ValidBut(Some(i)) && i < |levels| && levels[i].price == price
      ensures forall j :: 0 <= j < |levels| ==> levels[j] in old(levels) || fresh(levels[j])
    {
      var found;
      i, found := Locate(price);
      if !found {
        var level := new PriceLevel(price, this);
        Enter(i, level);
      }
    }

    /** Queue `node` behind the orders already at its price. */
    method Rest(node: OrderNode) returns (ghost k: nat)
      requires Valid() && Absent(node, queue)
      requires node.side == side && node.symbol == symbol && node.Live()
      modifies this, levels, queue`next, node`prev, node`next
      ensures Valid() && forall j :: 0 <= j < |levels| ==> levels[j] in old(levels) || fresh(levels[j])
      ensures IsRank(old(queue), side, node.price, k) && queue == old(queue)[..k] + [node] + old(queue)[k..]
    {
      hide NodeMap.ValidBut, Absent, IsRank;
      var i := Place(node.price);
      RowInQueue(this, i);
      k := Append(i, node);
    }

    /** Unlink the queue's order `at`, found by its price and its own pointer; delete its level if it was the last one there. */
    method Withdraw(price: Price, node: OrderNode, ghost at: nat) returns (found: bool)
      requires Valid() && at < |queue| && queue[at] == node && node.price == price
      modifies this, levels, queue`prev, queue`next
      ensures Valid() && forall l :: l in levels ==> l in old(levels)
      ensures found && queue == Without(old(queue), at)
    {
      var i;
      Parts(this, None);
      i, found := Locate(price);
      ghost var k := PlaceOf(this, i, found, at);
      RowInQueue(this, i);
      hide NodeMap.ValidBut, Keyed, Without, Flatten;
      Pluck(i, node, k, at);
      EmptyIffHeadless(this, i);
      if levels[i].head == null {
        Drop(i);
        SubWithout(old(levels), i);
      } else {
        NoHole(this, i);
      }
    }

    /** The first `depth` levels as rows of price, total and count. */
    method Rows(depth: nat) returns (shown: seq<Level>)
      requires Valid()
      ensures shown == Take(Wrapped(Levels(Recs(queue))), depth)
    {
      shown := [];
      var n := Min(depth, |levels|);
      for i := 0 to n
        invariant shown == RowsOf(levels)[..i]
      {
        shown := shown + [Level(levels[i].price, levels[i].totalQuantity, levels[i].orderCount)];
      }
      LevelsAreRows(this, 0);
      assert levels[0..] == levels && rows[0..] == rows;
    }
  }

  lemma {:induction false} IsOk(level: PriceLevel)
    requires level.Sound()
    ensures LevelOk(level, level.nodes)
  {
  }

  method Push(level: PriceLevel, node: OrderNode)
    requires level.Sound() && node !in level.nodes && node.Live()
    modifies level, level.nodes`next, node`prev, node`next
    ensures LevelOk(level, old(level.nodes) + [node]) && level.nodes == old(level.nodes) + [node]
  {
    hide PriceLevel.Linked, PriceLevel.Counted;
    level.PushBack(node);
  }

  method Pull(level: PriceLevel, node: OrderNode, ghost k: nat)
    requires level.Sound() && k < |level.nodes| && level.nodes[k] == node
    modifies level, level.nodes`prev, level.nodes`next
    ensures LevelOk(level, Without(old(level.nodes), k)) && level.nodes == Without(old(level.nodes), k)
  {
    hide PriceLevel.Linked, PriceLevel.Counted;
    level.Remove(node, k);
  }

  /** What validity says, apart from how `this` holds it. */
  lemma {:induction false} Parts(m: NodeMap, hole: Option<nat>)
    requires m.ValidBut(hole)
    ensures |m.levels| == |m.rows| && Keyed(m.side, m.symbol, m, m.levels, m.rows)
    ensures DistinctIds(m.queue) && m.queue == Flatten(m.rows)
    ensures forall j :: 0 <= j < |m.levels| ==> LevelOk(m.levels[j], m.rows[j]) && (Some(j) != hole ==> m.rows[j] != [])
  {
    hide LevelOk, DistinctIds, Flatten;
    forall j | 0 <= j < |m.levels|
      ensures LevelOk(m.levels[j], m.rows[j])
    {
      assert m.RowOk(j);
    }
  }

  lemma {:induction false} Rebuilt(m: NodeMap, hole: Option<nat>)
    requires |m.levels| == |m.rows| && Keyed(m.side, m.symbol, m, m.levels, m.rows)
    requires DistinctIds(m.queue) && m.queue == Flatten(m.rows)
    requires forall j :: 0 <= j < |m.levels| ==> LevelOk(m.levels[j], m.rows[j]) && (Some(j) != hole ==> m.rows[j] != [])
    ensures m.ValidBut(hole)
  {
    hide LevelOk, Keyed, DistinctIds;
    forall j | 0 <= j < |m.rows|
      ensures m.RowOk(j)
    {
      RowInFlatten(m.rows, j);
    }
  }

  lemma {:induction false} WithAt<T>(xs: seq<T>, at: nat, x: T)
    requires at <= |xs|
    ensures var ys := xs[..at] + [x] + xs[at..];
            && |ys| == |xs| + 1 && ys[at] == x && (forall j :: 0 <= j < at ==> ys[j] == xs[j])
            && (forall j :: at <= j < |xs| ==> ys[j + 1] == xs[j]) && (forall j :: at < j < |ys| ==> ys[j] == xs[j - 1])
  {
  }

  lemma {:induction false} FlattenWith(rows: seq<seq<OrderNode>>, i: nat)
    requires i <= |rows|
    ensures Flatten(rows[..i] + [[]] + rows[i..]) == Flatten(rows)
  {
    hide Flatten;
    FlattenEmptyRow(rows[..i], rows[i..]);
    assert rows[..i] + rows[i..] == rows;
  }

  lemma {:induction false} Entered(m: NodeMap, i: nat, level: PriceLevel)
    requires Keyed(m.side, m.symbol, m, m.levels, m.rows) && i <= |m.levels| && level.home == m
    requires forall j :: 0 <= j < |m.levels| ==> LevelOk(m.levels[j], m.rows[j]) && m.rows[j] != []
    requires LevelOk(level, [])
    requires forall j :: 0 <= j < i ==> Better(m.side, m.levels[j].price, level.price)
    requires forall j :: i <= j < |m.levels| ==> Better(m.side, level.price, m.levels[j].price)
    ensures var levels, rows := m.levels[..i] + [level] + m.levels[i..], m.rows[..i] + [[]] + m.rows[i..];
            && |levels| == |rows| && Keyed(m.side, m.symbol, m, levels, rows) && Flatten(rows) == Flatten(m.rows)
            && forall j :: 0 <= j < |levels| ==> LevelOk(levels[j], rows[j]) && (j != i ==> rows[j] != [])
  {
    hide LevelOk, Keyed, Flatten, Better;
    RowPerLevel(m);
    FlattenWith(m.rows, i);
    var levels, rows := m.levels[..i] + [level] + m.levels[i..], m.rows[..i] + [[]] + m.rows[i..];
    WithAt(m.levels, i, level);
    WithAt(m.rows, i, []);
    forall j | 0 <= j < |levels|
      ensures LevelOk(levels[j], rows[j]) && (j != i ==> rows[j] != [])
    {
      if j != i {
        var k := if j < i then j else j - 1;
        assert levels[j] == m.levels[k] && rows[j] == m.rows[k];
      }
    }
    KeyedEntered(m.side, m.symbol, m, m.levels, m.rows, i, level, levels, rows);
  }

  lemma {:induction false} KeyedEntered(side: Side, symbol: Symbol, home: object, levels: seq<PriceLevel>, rows: seq<seq<OrderNode>>,
                                        i: nat, level: PriceLevel, levels': seq<PriceLevel>, rows': seq<seq<OrderNode>>)
    requires Keyed(side, symbol, home, levels, rows) && i <= |levels| && level.home == home && |levels'| == |rows'| == |levels| + 1
    requires forall j :: 0 <= j < i ==> Better(side, levels[j].price, level.price)
    requires forall j :: i <= j < |levels| ==> Better(side, level.price, levels[j].price)
    requires forall j :: 0 <= j < i ==> levels'[j] == levels[j] && rows'[j] == rows[j]
    requires levels'[i] == level && rows'[i] == []
    requires forall j :: i <= j < |levels| ==> levels'[j + 1] == levels[j] && rows'[j + 1] == rows[j]
    ensures Keyed(side, symbol, home, levels', rows')
  {
    forall j, k | 0 <= j < k < |levels'|
      ensures Better(side, levels'[j].price, levels'[k].price)
    {
      assert j < i ==> levels'[j] == levels[j];
      assert j > i ==> levels'[j] == levels[j - 1];
      assert k < i ==> levels'[k] == levels[k];
      assert k > i ==> levels'[k] == levels[k - 1];
    }
    forall j | 0 <= j < |levels'|
      ensures levels'[j].home == home && AtPrice(side, symbol, levels'[j].price, rows'[j])
    {
      assert j < i ==> levels'[j] == levels[j] && rows'[j] == rows[j];
      assert j > i ==> levels'[j] == levels[j - 1] && rows'[j] == rows[j - 1];
    }
  }

  lemma {:induction false} RowPerLevel(m: NodeMap)
    requires Keyed(m.side, m.symbol, m, m.levels, m.rows)
    ensures |m.rows| == |m.levels|
  {
  }

  lemma {:induction false} WithoutAt<T>(xs: seq<T>, at: nat)
    requires at < |xs|
    ensures var ys := Without(xs, at);
            && |ys| == |xs| - 1 && (forall j :: 0 <= j < at ==> ys[j] == xs[j]) && (forall j :: at < j < |xs| ==> ys[j - 1] == xs[j])
            && (forall j :: at <= j < |ys| ==> ys[j] == xs[j + 1])
  {
  }

  lemma {:induction false} FlattenWithout(rows: seq<seq<OrderNode>>, i: nat)
    requires i < |rows| && rows[i] == []
    ensures Flatten(Without(rows, i)) == Flatten(rows)
  {
    hide Flatten;
    FlattenEmptyRow(rows[..i], rows[i + 1..]);
    assert rows[..i] + [[]] + rows[i + 1..] == rows;
  }

  lemma {:induction false} Dropped(m: NodeMap, i: nat)
    requires Keyed(m.side, m.symbol, m, m.levels, m.rows) && i < |m.levels| && m.rows[i] == []
    requires forall j :: 0 <= j < |m.levels| ==> LevelOk(m.levels[j], m.rows[j]) && (j != i ==> m.rows[j] != [])
    ensures var levels, rows := Without(m.levels, i), Without(m.rows, i);
            && |levels| == |rows| && Keyed(m.side, m.symbol, m, levels, rows) && Flatten(rows) == Flatten(m.rows)
            && forall j :: 0 <= j < |levels| ==> LevelOk(levels[j], rows[j]) && rows[j] != []
  {
    hide LevelOk, Keyed, Flatten, Without;
    RowPerLevel(m);
    FlattenWithout(m.rows, i);
    var levels, rows := Without(m.levels, i), Without(m.rows, i);
    WithoutAt(m.levels, i);
    WithoutAt(m.rows, i);
    forall j | 0 <= j < |levels|
      ensures LevelOk(levels[j], rows[j]) && rows[j] != []
    {
      var k := if j < i then j else j + 1;
      assert levels[j] == m.levels[k] && rows[j] == m.rows[k];
    }
    KeyedDropped(m.side, m.symbol, m, m.levels, m.rows, i, levels, rows);
  }

  lemma {:induction false} KeyedDropped(side: Side, symbol: Symbol, home: object, levels: seq<PriceLevel>, rows: seq<seq<OrderNode>>,
                                        i: nat, levels': seq<PriceLevel>, rows': seq<seq<OrderNode>>)
    requires Keyed(side, symbol, home, levels, rows) && i < |levels| == |levels'| + 1 && |rows'| == |levels'|
    requires forall j :: 0 <= j < i ==> levels'[j] == levels[j] && rows'[j] == rows[j]
    requires forall j :: i < j < |levels| ==> levels'[j - 1] == levels[j] && rows'[j - 1] == rows[j]
    ensures Keyed(side, symbol, home, levels', rows')
  {
    forall j, k | 0 <= j < k < |levels'|
      ensures Better(side, levels'[j].price, levels'[k].price)
    {
      assert levels'[j] == (if j < i then levels[j] else levels[j + 1]);
      assert levels'[k] == (if k < i then levels[k] else levels[k + 1]);
    }
    forall j | 0 <= j < |levels'|
      ensures levels'[j].home == home && AtPrice(side, symbol, levels'[j].price, rows'[j])
    {
      assert levels'[j] == (if j < i then levels[j] else levels[j + 1]);
      assert rows'[j] == (if j < i then rows[j] else rows[j + 1]);
    }
  }

  lemma {:induction false} RowInQueue(m: NodeMap, i: nat)
    requires m.ValidBut(Some(i)) || m.Valid()
    ensures |m.rows| == |m.levels|
    ensures i < |m.rows| ==> forall k :: 0 <= k < |m.rows[i]| ==> m.rows[i][k] in m.queue
  {
    if i < |m.rows| {
      assert m.RowOk(i);
    }
  }

  lemma {:induction false} EmptyIffHeadless(m: NodeMap, i: nat)
    requires m.ValidBut(Some(i)) && i < |m.levels|
    ensures |m.rows| == |m.levels| && (m.levels[i].head == null <==> m.rows[i] == [])
  {
    assert m.RowOk(i);
  }

  lemma {:induction false} NoHole(m: NodeMap, i: nat)
    requires m.ValidBut(Some(i)) && i < |m.rows| && m.rows[i] != []
    ensures m.Valid()
  {
  }

  lemma {:induction false} SubWithout<T>(xs: seq<T>, i: nat)
    requires i < |xs|
    ensures forall x :: x in Without(xs, i) ==> x in xs
  {
  }

  /** Where the queue's order `at` is inside the level with its price. */
  lemma {:induction false} PlaceOf(m: NodeMap, i: nat, found: bool, at: nat) returns (k: nat)
    requires m.Shaped() && at < |m.queue| && i <= |m.levels|
    requires forall j :: 0 <= j < i ==> Better(m.side, m.levels[j].price, m.queue[at].price)
    requires forall j :: i <= j < |m.levels| && (found ==> i < j) ==> Better(m.side, m.queue[at].price, m.levels[j].price)
    requires found ==> i < |m.levels| && m.levels[i].price == m.queue[at].price
    ensures found && k < |m.rows[i]| && m.rows[i][k] == m.queue[at] && at == |Flatten(m.rows[..i])| + k
  {
    assert m.queue[at] in m.queue;
    var j := InSomeRow(m.rows, m.queue[at]);
    k :| 0 <= k < |m.rows[j]| && m.rows[j][k] == m.queue[at];
    assert m.rows[j][k].price == m.levels[j].price;
    assert j == i;
    FlattenAround(m.rows, i);
    assert m.queue[|Flatten(m.rows[..i])| + k] == m.rows[i][k];
  }

  ghost function RowsOf(levels: seq<PriceLevel>): (shown: seq<Level>)
    reads levels
    ensures |shown| == |levels|
    ensures forall i :: 0 <= i < |levels| ==> shown[i] == Level(levels[i].price, levels[i].totalQuantity, levels[i].orderCount)
  {
    seq(|levels|, i requires 0 <= i < |levels| reads levels => Level(levels[i].price, levels[i].totalQuantity, levels[i].orderCount))
  }

  lemma {:induction false} VolumeIsSum(nodes: seq<OrderNode>)
    requires Alive(nodes)
    ensures Volume(Recs(nodes)) == SumRemaining(nodes)
  {
    if nodes != [] {
      VolumeIsSum(nodes[1..]);
      assert Recs(nodes)[1..] == Recs(nodes[1..]);
      assert nodes[0].Live();
    }
  }

  /** The levels are exactly the runs of equal price in the queue. */
  lemma {:induction false} LevelsAreRows(m: NodeMap, i: nat)
    requires m.Valid() && i <= |m.levels| == |m.rows|
    ensures Wrapped(Levels(Recs(Flatten(m.rows[i..])))) == RowsOf(m.levels[i..])
    decreases |m.levels| - i
  {
    if i < |m.levels| {
      LevelsAreRows(m, i + 1);
      NextRow(m, i);
      hide NodeMap.ValidBut, Recs, Levels, Volume;
      var rest := Flatten(m.rows[i + 1..]);
      FirstRun(m.rows[i], rest, m.levels[i].price);
      assert Flatten(m.rows[i..]) == m.rows[i] + rest by {
        assert m.rows[i..][1..] == m.rows[i + 1..];
      }
      WrappedFirst(Level(m.levels[i].price, Volume(Recs(m.rows[i])), |m.rows[i]|), Levels(Recs(rest)));
      RowsOfFirst(m.levels, i);
    } else {
      assert m.levels[i..] == [];
    }
  }

  lemma {:induction false} WrappedFirst(l: Level, ls: seq<Level>)
    ensures Wrapped([l] + ls) == [Wrap(l)] + Wrapped(ls)
  {
    assert ([l] + ls)[1..] == ls;
  }

  lemma {:induction false} RowsOfFirst(levels: seq<PriceLevel>, i: nat)
    requires i < |levels|
    ensures RowsOf(levels[i..]) == [Level(levels[i].price, levels[i].totalQuantity, levels[i].orderCount)] + RowsOf(levels[i + 1..])
  {
  }

  lemma {:induction false} NextRow(m: NodeMap, i: nat)
    requires m.Valid() && i < |m.levels|
    ensures |m.rows| == |m.levels|
    ensures var rest := Flatten(m.rows[i + 1..]); rest != [] ==> rest[0].price != m.levels[i].price
    ensures m.rows[i] != [] && forall k :: 0 <= k < |m.rows[i]| ==> m.rows[i][k].price == m.levels[i].price
    ensures m.levels[i].totalQuantity == Volume(Recs(m.rows[i])) % WORD && m.levels[i].orderCount == |m.rows[i]| % WORD
  {
    Around(m, i);
    VolumeIsSum(m.rows[i]);
    var rest := Flatten(m.rows[i + 1..]);
    if rest != [] {
      assert rest[0] in rest;
      var j := InSomeRow(m.rows[i + 1..], rest[0]);
    }
  }

  lemma {:induction false} FirstRun(nodes: seq<OrderNode>, rest: seq<OrderNode>, price: Price)
    requires nodes != [] && (forall k :: 0 <= k < |nodes| ==> nodes[k].price == price) && (rest != [] ==> rest[0].price != price)
    ensures Levels(Recs(nodes + rest)) == [Level(price, Volume(Recs(nodes)), |nodes|)] + Levels(Recs(rest))
  {
    var q := Recs(nodes + rest);
    RunIs(q, price, |nodes|);
    assert q[..|nodes|] == Recs(nodes) && q[|nodes|..] == Recs(rest);
  }

  /** Level `i` and the rest of the map, which shares no level and no node with it. */
  lemma {:induction false} Around(m: NodeMap, i: nat)
    requires (m.ValidBut(Some(i)) || m.Valid()) && i < |m.levels|
    ensures |m.levels| == |m.rows| && m.levels[i].nodes == m.rows[i] && m.levels[i].Sound()
    ensures forall j :: 0 <= j < |m.levels| && j != i ==> LevelOk(m.levels[j], m.rows[j]) && m.rows[j] != []
    ensures Keyed(m.side, m.symbol, m, m.levels, m.rows) && DistinctIds(m.queue) && m.queue == Flatten(m.rows)
    ensures AtPrice(m.side, m.symbol, m.levels[i].price, m.rows[i])
    ensures forall j :: 0 <= j < |m.levels| && j != i ==> m.levels[j] != m.levels[i]
    ensures forall j, k, l :: 0 <= j < |m.levels| && j != i && 0 <= k < |m.rows[j]| && 0 <= l < |m.rows[i]| ==> m.rows[j][k] != m.rows[i][l]
    ensures m.queue == Flatten(m.rows[..i]) + m.rows[i] + Flatten(m.rows[i + 1..])
  {
    hide PriceLevel.Sound;
    assert m.RowOk(i);
    forall j | 0 <= j < |m.levels|
      ensures LevelOk(m.levels[j], m.rows[j])
    {
      assert m.RowOk(j);
    }
    FlattenAround(m.rows, i);
  }

  /** The best level's orders head the queue. */
  lemma {:induction false} FirstRow(m: NodeMap)
    requires m.ValidBut(Some(0)) && m.levels != []
    ensures m.rows[0] == m.queue[..|m.rows[0]|]
    ensures forall i, k :: 0 <= i < |m.queue| && 0 <= k < |m.rows[0]| && i != k ==> m.queue[i] != m.rows[0][k]
    ensures LevelOk(m.levels[0], m.rows[0])
    ensures m.rows[0] != [] ==> AtPrice(m.side, m.symbol, m.levels[0].price, m.rows[0][1..])
  {
    assert m.RowOk(0);
  }

  /** The place behind the orders of level `i`, and the queue with a newcomer there. */
  lemma {:induction false} BehindRow(m: NodeMap, i: nat, node: OrderNode) returns (k: nat)
    requires m.ValidBut(Some(i)) && i < |m.levels| && Absent(node, m.queue) && node.price == m.levels[i].price
    ensures IsRank(m.queue, m.side, node.price, k)
    ensures Flatten(m.rows[i := m.rows[i] + [node]]) == m.queue[..k] + [node] + m.queue[k..]
    ensures DistinctIds(m.queue[..k] + [node] + m.queue[k..])
    ensures forall j, l :: 0 <= j < |m.rows| && 0 <= l < |m.rows[j]| ==> m.rows[j][l] != node
    ensures node !in m.rows[i]
  {
    k := |Flatten(m.rows[..i + 1])|;
    FlattenSplit(m.rows, i + 1);
    FlattenAround(m.rows, i);
    FlattenUpdate(m.rows, i, m.rows[i] + [node]);
    var front, back := Flatten(m.rows[..i + 1]), Flatten(m.rows[i + 1..]);
    assert front == m.queue[..k] && back == m.queue[k..];
    assert Flatten(m.rows[..i]) + (m.rows[i] + [node]) + back == front + [node] + back;
    CutByPrice(m, i + 1, node.price);
    StillDistinct(m.queue, k, node);
    forall j, l | 0 <= j < |m.rows| && 0 <= l < |m.rows[j]|
      ensures m.rows[j][l] != node
    {
      RowInFlatten(m.rows, j);
      assert m.rows[j][l] in m.queue;
    }
  }

  /** Cutting the levels at a price cuts the queue there. */
  lemma {:induction false} CutByPrice(m: NodeMap, i: nat, price: Price)
    requires m.Shaped() && i <= |m.levels|
    requires forall j :: 0 <= j < i ==> AtLeastAsGood(m.side, m.levels[j].price, price)
    requires forall j :: i <= j < |m.levels| ==> Better(m.side, price, m.levels[j].price)
    ensures IsRank(m.queue, m.side, price, |Flatten(m.rows[..i])|)
  {
    FlattenSplit(m.rows, i);
    var front, back := Flatten(m.rows[..i]), Flatten(m.rows[i..]);
    forall n | 0 <= n < |front|
      ensures AtLeastAsGood(m.side, m.queue[n].price, price)
    {
      assert front[n] in front;
      var j := InSomeRow(m.rows[..i], front[n]);
    }
    if back != [] {
      assert back[0] in back;
      var j := InSomeRow(m.rows[i..], back[0]);
      assert m.queue[|front|] == back[0];
    }
  }

  lemma {:induction false} StillDistinct(queue: seq<OrderNode>, k: nat, node: OrderNode)
    requires DistinctIds(queue) && Absent(node, queue) && k <= |queue|
    ensures DistinctIds(queue[..k] + [node] + queue[k..])
  {
    var q := queue[..k] + [node] + queue[k..];
    assert forall j :: 0 <= j < |q| ==> q[j] == if j < k then queue[j] else if j == k then node else queue[j - 1];
  }

  lemma {:induction false} TakenOut(m: NodeMap, i: nat, k: nat)
    requires m.Shaped() && i < |m.rows| && k < |m.rows[i]|
    ensures var at := |Flatten(m.rows[..i])| + k;
            && at < |m.queue| && m.queue[at] == m.rows[i][k]
            && Flatten(m.rows[i := Without(m.rows[i], k)]) == Without(m.queue, at)
            && DistinctIds(Without(m.queue, at))
    ensures AtPrice(m.side, m.symbol, m.levels[i].price, Without(m.rows[i], k))
  {
    FlattenAround(m.rows, i);
    FlattenUpdate(m.rows, i, Without(m.rows[i], k));
    WithoutInside(Flatten(m.rows[..i]), m.rows[i], k, Flatten(m.rows[i + 1..]));
  }

  lemma {:induction false} WithoutInside(front: seq<OrderNode>, row: seq<OrderNode>, k: nat, back: seq<OrderNode>)
    requires k < |row| && DistinctIds(front + row + back)
    ensures var queue, at := front + row + back, |front| + k;
            queue[at] == row[k] && front + Without(row, k) + back == Without(queue, at) && DistinctIds(Without(queue, at))
  {
    var queue, at := front + row + back, |front| + k;
    var rest := Without(queue, at);
    assert forall j :: 0 <= j < |rest| ==> rest[j] == if j < at then queue[j] else queue[j + 1];
  }

  lemma {:induction false} FirstRowChanged(was: seq<seq<OrderNode>>, row: seq<OrderNode>)
    requires was != [] && was[0] != [] && (row == was[0] || row == was[0][1..]) && DistinctIds(Flatten(was))
    ensures Flatten(was[0 := row]) == (if |row| < |was[0]| then Flatten(was)[1..] else Flatten(was))
    ensures DistinctIds(Flatten(was[0 := row]))
  {
    assert was[0 := row][1..] == was[1..];
  }

  /** A map whose row `i` alone has changed, soundly, is still sound. */
  lemma {:induction false} RowChanged(m: NodeMap, was: seq<seq<OrderNode>>, i: nat)
    requires Keyed(m.side, m.symbol, m, m.levels, was) && i < |was| == |m.rows| && m.rows == was[i := m.rows[i]]
    requires AtPrice(m.side, m.symbol, m.levels[i].price, m.rows[i])
    requires m.queue == Flatten(m.rows) && DistinctIds(m.queue)
    requires forall j :: 0 <= j < |was| && j != i ==> was[j] != [] && LevelOk(m.levels[j], was[j])
    requires LevelOk(m.levels[i], m.rows[i])
    ensures m.ValidBut(Some(i)) && (m.rows[i] != [] ==> m.Valid())
  {
    hide LevelOk, DistinctIds;
    forall j | 0 <= j < |m.rows|
      ensures m.RowOk(j)
    {
      RowInFlatten(m.rows, j);
    }
  }
}
