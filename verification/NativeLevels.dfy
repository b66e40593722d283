/**
 The C++ price level: an intrusive doubly linked list of order nodes with running
 counters in 32-bit arithmetic.
 */
module NativeLevels {
  import opened Domain
  import opened BookSpec

  /** uint32_t */
  type Word = x: int | 0 <= x < 0x1_0000_0000

  /** Counting in a wrapped word is counting, wrapped. */
  lemma {:induction false} Wraps(total: int, change: int)
    ensures (total % WORD + change) % WORD == (total + change) % WORD
  {
  }

  /** What crosses the wire: no price and price 0.0 are the same. */
  function Wire(r: OrderRec): OrderRec {
    r.(price := if r.Px() == 0.0 then None else r.price)
  }

  class OrderNode {
    const id: OrderId
    const symbol: Symbol
    const side: Side
    const kind: OrderType
    const price: Price
    const quantity: Word
    const tif: Tif
    var filled: Word
    var status: Status
    var prev: OrderNode?
    var next: OrderNode?

    constructor (r: OrderRec)
      requires 0 <= r.quantity < WORD && 0 <= r.filled < WORD
      ensures Rec() == Wire(r)
      ensures prev == null && next == null
    {
      id, symbol, side, kind, price := r.id, r.symbol, r.side, r.kind, r.Px();
      quantity, tif, filled, status := r.quantity, r.tif, r.filled, r.status;
      prev, next := null, null;
    }

    /** As everywhere on the wire, price 0.0 stands for no price. */
    function Rec(): OrderRec
      reads this`filled, this`status
    {
      OrderRec(id, symbol, side, kind, if price == 0.0 then None else Some(price), quantity, tif, filled, status)
    }

    /** Unsigned subtraction: exact as long as no more is filled than was ordered. */
    function Remaining(): Word
      reads this`filled
    {
      (quantity - filled) % WORD
    }

    ghost predicate Live()
      reads this`filled
    {
      filled < quantity
    }
  }

  ghost function Recs(nodes: seq<OrderNode>): (rs: seq<OrderRec>)
    reads nodes
    ensures |rs| == |nodes|
    ensures forall i :: 0 <= i < |nodes| ==> rs[i] == nodes[i].Rec()
  {
    seq(|nodes|, i requires 0 <= i < |nodes| reads nodes => nodes[i].Rec())
  }

  ghost function SumRemaining(nodes: seq<OrderNode>): int
    reads nodes`filled
  {
    if nodes == [] then 0 else nodes[0].Remaining() + SumRemaining(nodes[1..])
  }

  lemma {:induction false} SumRemainingConcat(a: seq<OrderNode>, b: seq<OrderNode>)
    ensures SumRemaining(a + b) == SumRemaining(a) + SumRemaining(b)
  {
    if a == [] {
      assert a + b == b;
    } else {
      assert (a + b)[1..] == a[1..] + b;
      SumRemainingConcat(a[1..], b);
    }
  }

  lemma {:induction false} SumWithout(nodes: seq<OrderNode>, k: nat)
    requires k < |nodes|
    ensures SumRemaining(Without(nodes, k)) == SumRemaining(nodes) - nodes[k].Remaining()
  {
    assert nodes == nodes[..k] + ([nodes[k]] + nodes[k + 1..]);
    SumRemainingConcat(nodes[..k], [nodes[k]] + nodes[k + 1..]);
    SumRemainingConcat(nodes[..k], nodes[k + 1..]);
  }

  class PriceLevel {
    const price: Price
    ghost const home: object
    var totalQuantity: Word
    var orderCount: Word
    var head: OrderNode?
    var tail: OrderNode?
    /** The nodes of the list in arrival order. */
    ghost var nodes: seq<OrderNode>

    constructor (price: Price, ghost home: object)
      ensures this.price == price && this.home == home && nodes == [] && Linked() && Counted()
    {
      this.price, this.home := price, home;
      totalQuantity, orderCount, head, tail, nodes := 0, 0, null, null, [];
    }

    /** prev and next are inverse, run from head to tail, and visit each node once in order. */
    ghost predicate Linked()
      reads `head, `tail, `nodes, nodes`prev, nodes`next
    {
      && (forall i, j :: 0 <= i < j < |nodes| ==> nodes[i] != nodes[j])
      && (nodes == [] ==> head == null && tail == null)
      && (nodes != [] ==> Ends(head, nodes[0], nodes[|nodes| - 1], tail))
      && (forall i, j :: 0 <= i < j < |nodes| && j == i + 1 ==> nodes[i].next == nodes[j] && nodes[j].prev == nodes[i])
    }

    /** The counters are exact modulo the word size. */
    ghost predicate Counted()
      reads `totalQuantity, `orderCount, `nodes, nodes`filled
    {
      totalQuantity == SumRemaining(nodes) % WORD && orderCount == |nodes| % WORD
    }

    /** A level the book can hold: well linked, counted, and with something left of every order. */
    ghost predicate Sound()
      reads this, nodes
    {
      Linked() && Counted() && Alive(nodes)
    }

    method PushBack(node: OrderNode)
      requires Linked() && Counted() && node !in nodes
      modifies this, nodes`next, node`prev, node`next
      ensures Linked() && Counted() && nodes == old(nodes) + [node]
    {
      node.prev := tail;
      node.next := null;
      if tail != null {
        tail.next := node;
      } else {
        head := node;
      }
      tail := node;
      totalQuantity := (totalQuantity + node.Remaining()) % WORD;
      orderCount := (orderCount + 1) % WORD;
      nodes := nodes + [node];
      Joined(this, node);
    }

    /** Take `quantity` off the oldest order and off the counter. */
    method ReduceHead(quantity: Word)
      requires Linked() && Counted() && Alive(nodes) && nodes != [] && 0 < quantity <= nodes[0].Remaining()
      modifies `totalQuantity, nodes[..1]`filled
      ensures Linked() && Counted()
      ensures nodes[0].filled == old(nodes[0].filled) + quantity <= nodes[0].quantity
      ensures nodes[0].Remaining() == nodes[0].quantity - nodes[0].filled
    {
      hide PriceLevel.Counted, PriceLevel.Linked, SumRemaining;
      Neighbours(this, 0);
      assert nodes[0].Live();
      head.filled := (head.filled + quantity) % WORD;
      totalQuantity := (totalQuantity - quantity) % WORD;
      Reduced(this, quantity);
    }

    /** Fill part or all of the oldest order; unlink it when nothing is left of it. */
    method FillHead(quantity: Word)
      requires Sound() && nodes != [] && 0 < quantity <= nodes[0].Remaining()
      modifies this, nodes
      ensures Sound()
      ensures var maker := old(nodes[0]);
              && maker.Rec() == AfterFill(old(maker.Rec()), quantity)
              && nodes == (if maker.Rec().Remaining() == 0 then old(nodes)[1..] else old(nodes))
      ensures forall i :: 1 <= i < |old(nodes)| ==> old(nodes)[i].Rec() == old(nodes[i].Rec())
    {
      hide PriceLevel.Linked, PriceLevel.Counted;
      var resting := head;
      Neighbours(this, 0);
      ReduceHead(quantity);
      if resting.Remaining() == 0 {
        resting.status := Filled;
        Remove(resting, 0);
      } else {
        resting.status := PartiallyFilled;
      }
    }

    /** Unlink a node in place; `k` is where it is. */
    method Remove(node: OrderNode, ghost k: nat)
      requires Linked() && Counted() && k < |nodes| && nodes[k] == node
      modifies this, nodes`prev, nodes`next
      ensures Linked() && Counted() && nodes == Without(old(nodes), k)
      ensures node.prev == null && node.next == null
    {
      Neighbours(this, k);
      hide Counted, Linked;
      if node.prev != null {
        node.prev.next := node.next;
      } else {
        head := node.next;
      }
      if node.next != null {
        node.next.prev := node.prev;
      } else {
        tail := node.prev;
      }
      totalQuantity := (totalQuantity - node.Remaining()) % WORD;
      orderCount := (orderCount - 1) % WORD;
      node.prev := null;
      node.next := null;
      nodes := Without(nodes, k);
      UnlinkedLinks(this, k);
      UnlinkedCount(this, k);
    }
  }

  ghost predicate Alive(nodes: seq<OrderNode>)
    reads nodes`filled
  {
    forall i :: 0 <= i < |nodes| ==> nodes[i].Live()
  }

  ghost predicate Ends(head: OrderNode?, first: OrderNode, last: OrderNode, tail: OrderNode?)
    reads first`prev, last`next
  {
    head == first && first.prev == null && last.next == null && tail == last
  }

  /** The nodes on either side of position `k`. */
  lemma {:induction false} Neighbours(l: PriceLevel, k: nat)
    requires l.Linked() && k < |l.nodes|
    ensures k == 0 ==> l.nodes[k].prev == null && l.head == l.nodes[k]
    ensures k > 0 ==> l.nodes[k].prev == l.nodes[k - 1] && l.nodes[k - 1].next == l.nodes[k]
    ensures k == |l.nodes| - 1 ==> l.nodes[k].next == null && l.tail == l.nodes[k]
    ensures k < |l.nodes| - 1 ==> l.nodes[k].next == l.nodes[k + 1] && l.nodes[k + 1].prev == l.nodes[k]
    ensures forall i, j :: 0 <= i < j < |l.nodes| ==> l.nodes[i] != l.nodes[j]
  {
  }

  twostate lemma {:induction false} SameSum(nodes: seq<OrderNode>)
    requires forall i :: 0 <= i < |nodes| ==> nodes[i].filled == old(nodes[i].filled)
    ensures SumRemaining(nodes) == old(SumRemaining(nodes))
  {
    if nodes != [] {
      SameSum(nodes[1..]);
    }
  }

  /** Filling the oldest order takes as much off the counter as off the order. */
  twostate lemma {:induction false} Reduced(l: PriceLevel, new quantity: Word)
    requires old(l.Counted()) && old(Alive(l.nodes)) && l.nodes == old(l.nodes) && l.nodes != [] && l.orderCount == old(l.orderCount)
    requires quantity <= old(l.nodes[0].Remaining())
    requires l.nodes[0].filled == old(l.nodes[0].filled) + quantity
    requires forall i :: 1 <= i < |l.nodes| ==> l.nodes[i].filled == old(l.nodes[i].filled)
    requires l.totalQuantity == (old(l.totalQuantity) - quantity) % WORD
    ensures l.Counted()
  {
    SameSum(l.nodes[1..]);
    assert l.nodes[0].Remaining() == old(l.nodes[0].Remaining()) - quantity;
    var taken: int := quantity;
    ghost var was, now := old(SumRemaining(l.nodes)), SumRemaining(l.nodes);
    assert now == was - taken;
    hide SumRemaining, OrderNode.Live;
    Wraps(was, -taken);
  }

  twostate lemma {:induction false} Joined(l: PriceLevel, new node: OrderNode)
    requires old(l.Linked()) && old(l.Counted()) && l.nodes == old(l.nodes) + [node] && node !in old(l.nodes)
    requires node.next == null && node.prev == old(l.tail)
    requires l.tail == node && l.head == (if old(l.nodes) == [] then node else old(l.head))
    requires var was := old(l.nodes);
             forall i :: 0 <= i < |was| ==> was[i].filled == old(was[i].filled) && was[i].prev == old(was[i].prev)
    requires var was := old(l.nodes);
             forall i :: 0 <= i < |was| - 1 ==> was[i].next == old(was[i].next)
    requires old(l.nodes) != [] ==> old(l.nodes)[|old(l.nodes)| - 1].next == node
    requires l.totalQuantity == (old(l.totalQuantity) + node.Remaining()) % WORD
    requires l.orderCount == (old(l.orderCount) + 1) % WORD
    ensures l.Linked() && l.Counted()
  {
    JoinedCount(l, node);
    hide PriceLevel.Counted;
    var was := old(l.nodes);
    assert forall i :: 0 <= i < |was| ==> l.nodes[i] == was[i];
  }

  twostate lemma {:induction false} JoinedCount(l: PriceLevel, new node: OrderNode)
    requires old(l.Counted()) && l.nodes == old(l.nodes) + [node]
    requires var was := old(l.nodes); forall i :: 0 <= i < |was| ==> was[i].filled == old(was[i].filled)
    requires l.totalQuantity == (old(l.totalQuantity) + node.Remaining()) % WORD
    requires l.orderCount == (old(l.orderCount) + 1) % WORD
    ensures l.Counted()
  {
    var was := old(l.nodes);
    SameSum(was);
    SumRemainingConcat(was, [node]);
    assert SumRemaining([node]) == node.Remaining();
    Wraps(SumRemaining(was), node.Remaining());
    Wraps(|was|, 1);
  }

  twostate lemma {:induction false} UnlinkedCount(l: PriceLevel, new k: nat)
    requires old(l.Counted()) && k < |old(l.nodes)| && l.nodes == Without(old(l.nodes), k)
    requires var was := old(l.nodes); forall i :: 0 <= i < |was| ==> was[i].filled == old(was[i].filled)
    requires l.totalQuantity == (old(l.totalQuantity) - old(l.nodes[k].Remaining())) % WORD
    requires l.orderCount == (old(l.orderCount) - 1) % WORD
    ensures l.Counted()
  {
    var was := old(l.nodes);
    SameSum(was);
    SumWithout(was, k);
    var left: int := was[k].Remaining();
    Wraps(SumRemaining(was), -left);
    Wraps(|was|, -1);
  }

  twostate lemma {:induction false} UnlinkedLinks(l: PriceLevel, new k: nat)
    requires old(l.Linked()) && k < |old(l.nodes)| && l.nodes == Without(old(l.nodes), k)
    requires var was := old(l.nodes);
             forall i :: 0 <= i < |was| && i != k ==>
               && was[i].prev == (if i == k + 1 then old(was[k].prev) else old(was[i].prev))
               && was[i].next == (if i == k - 1 then old(was[k].next) else old(was[i].next))
    requires l.head == (if k == 0 then old(l.nodes[k].next) else old(l.head))
    requires l.tail == (if k == |old(l.nodes)| - 1 then old(l.nodes[k].prev) else old(l.tail))
    ensures l.Linked()
  {
    var was := old(l.nodes);
    var n := |was|;
    assert forall i :: 0 <= i < |l.nodes| ==> l.nodes[i] == was[if i < k then i else i + 1];
    forall i, j | 0 <= i < j < |l.nodes| && j == i + 1
      ensures l.nodes[i].next == l.nodes[j] && l.nodes[j].prev == l.nodes[i]
    {
      if i + 1 < k {
        assert l.nodes[i] == was[i] && l.nodes[j] == was[i + 1];
      } else if i + 1 == k {
        assert l.nodes[i] == was[k - 1] && l.nodes[j] == was[k + 1];
      } else {
        assert l.nodes[i] == was[i + 1] && l.nodes[j] == was[i + 2];
      }
    }
    if l.nodes != [] {
      if k == 0 {
        assert l.nodes[0] == was[1];
      }
      if k == n - 1 {
        assert l.nodes[|l.nodes| - 1] == was[n - 2];
      }
    }
  }
}
