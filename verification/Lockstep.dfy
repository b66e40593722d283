/** The Python and the C++ book, driven side by side. */
module Lockstep {
  import opened Domain
  import opened BookSpec
  import Agreement
  import Py = PyBook
  import PyLevels
  import Cpp = NativeBook
  import NativeLevels
  import NativeMap

  /** What C++ can hold: 32-bit quantities, and no price that means "no price". */
  predicate Portable(r: OrderRec) {
    && 0 <= r.filled <= r.quantity < WORD && r.price != Some(0.0)
    && (r.kind.Limit? ==> r.price.Some?) && Agreement.Unpriced(r)
  }

  ghost predicate NoId(id: OrderId, queue: seq<OrderRec>) {
    forall i :: 0 <= i < |queue| ==> queue[i].id != id
  }

  class Mirror {
    const py: Py.OrderBook
    const cpp: Cpp.OrderBook

    constructor (symbol: Symbol)
      ensures Valid() && py.View() == Book(symbol, [], [], 0)
    {
      hide Py.OrderBook.Valid, Cpp.OrderBook.Valid, Py.OrderBook.View, Cpp.OrderBook.View;
      py := new Py.OrderBook(symbol);
      cpp := new Cpp.OrderBook(symbol);
    }

    ghost predicate PyValid()
      reads py, py.bids, py.asks, py.bids.levels, py.bids.queue`filled, py.asks.levels, py.asks.queue`filled
    {
      py.Valid()
    }

    ghost predicate CppValid()
      reads cpp, cpp.bids, cpp.asks, cpp.bids.levels, cpp.bids.queue, cpp.asks.levels, cpp.asks.queue
    {
      cpp.Valid()
    }

    /** Both books are sound and stand for the same abstract book. */
    ghost predicate Valid()
      reads py, py.bids, py.asks, py.bids.levels, py.bids.queue, py.asks.levels, py.asks.queue
      reads cpp, cpp.bids, cpp.asks, cpp.bids.levels, cpp.bids.queue, cpp.asks.levels, cpp.asks.queue
    {
      PyValid() && CppValid() && py.View() == cpp.View()
    }

    /** The Python half of a submission leaves the C++ book alone. */
    method SubmitPy(order: PyLevels.Order) returns (trades: seq<Trade>, resting: bool)
      requires PyValid() && CppValid() && order.symbol == py.symbol
      requires PyLevels.Absent(order, py.bids.queue) && PyLevels.Absent(order, py.asks.queue)
      requires order.kind.Limit? ==> order.price.Some?
      modifies py, order`filled, order`status
      modifies py.bids, py.bids.levels, py.bids.queue, py.asks, py.asks.levels, py.asks.queue
      ensures PyValid() && CppValid() && cpp.View() == old(cpp.View())
      ensures cpp.bids.queue == old(cpp.bids.queue) && cpp.asks.queue == old(cpp.asks.queue)
      ensures cpp.bids.levels == old(cpp.bids.levels) && cpp.asks.levels == old(cpp.asks.levels)
      ensures var out := BookSpec.Submit(old(py.View()), old(order.Rec()), order.price);
              py.View() == out.0 && order.Rec() == out.1.order && trades == out.1.trades && resting == out.1.resting
    {
      hide BookSpec.Submit, Py.OrderBook.Valid, Cpp.OrderBook.Valid, Py.OrderBook.View, Cpp.OrderBook.View;
      trades, resting := py.Submit(order);
    }

    /** The C++ half of a submission leaves the Python book alone. */
    method SubmitCpp(node: NativeLevels.OrderNode) returns (trades: seq<Trade>, resting: bool)
      requires PyValid() && CppValid() && node.symbol == cpp.symbol && node.filled <= node.quantity
      requires NativeMap.Absent(node, cpp.bids.queue) && NativeMap.Absent(node, cpp.asks.queue)
      modifies cpp, node, cpp.bids, cpp.bids.levels, cpp.bids.queue, cpp.asks, cpp.asks.levels, cpp.asks.queue
      ensures PyValid() && CppValid() && py.View() == old(py.View())
      ensures var out := BookSpec.Submit(old(cpp.View()), old(node.Rec()), Native.Bound(old(node.Rec())));
              cpp.View() == out.0 && node.Rec() == out.1.order && trades == out.1.trades && resting == out.1.resting
    {
      hide BookSpec.Submit, Py.OrderBook.Valid, Cpp.OrderBook.Valid, Py.OrderBook.View, Cpp.OrderBook.View, Backend.Bound;
      trades, resting := cpp.Submit(node);
    }

    method CancelPy(id: OrderId) returns (order: PyLevels.Order?)
      requires PyValid() && CppValid()
      modifies py`cancelMap, py.bids, py.bids.levels, py.bids.queue`status, py.asks, py.asks.levels, py.asks.queue`status
      ensures PyValid() && CppValid() && cpp.View() == old(cpp.View())
      ensures cpp.bids.queue == old(cpp.bids.queue) && cpp.asks.queue == old(cpp.asks.queue)
      ensures cpp.bids.levels == old(cpp.bids.levels) && cpp.asks.levels == old(cpp.asks.levels)
      ensures (py.View(), if order == null then None else Some(order.Rec())) == BookSpec.Cancel(old(py.View()), id)
    {
      hide BookSpec.Cancel, Py.OrderBook.Valid, Cpp.OrderBook.Valid, Py.OrderBook.View, Cpp.OrderBook.View;
      order := py.Cancel(id);
    }

    method CancelCpp(id: OrderId) returns (node: NativeLevels.OrderNode?)
      requires PyValid() && CppValid()
      modifies cpp`cancelMap, cpp.bids, cpp.bids.levels, cpp.bids.queue, cpp.asks, cpp.asks.levels, cpp.asks.queue
      ensures PyValid() && CppValid() && py.View() == old(py.View())
      ensures (cpp.View(), if node == null then None else Some(node.Rec())) == BookSpec.Cancel(old(cpp.View()), id)
    {
      hide BookSpec.Cancel, Py.OrderBook.Valid, Cpp.OrderBook.Valid, Py.OrderBook.View, Cpp.OrderBook.View;
      node := cpp.Cancel(id);
    }

    /** Both books take the same order, report the same and end up the same. */
    method Submit(r: OrderRec)
      returns (order: PyLevels.Order, node: NativeLevels.OrderNode, trades: seq<Trade>, resting: bool, trades': seq<Trade>, resting': bool)
      requires Valid() && Portable(r) && r.symbol == py.symbol
      requires NoId(r.id, py.View().bids) && NoId(r.id, py.View().asks)
      modifies py, py.bids, py.bids.levels, py.bids.queue, py.asks, py.asks.levels, py.asks.queue
      modifies cpp, cpp.bids, cpp.bids.levels, cpp.bids.queue, cpp.asks, cpp.asks.levels, cpp.asks.queue
      ensures Valid()
      ensures order.Rec() == node.Rec() && trades == trades' && resting == resting'
      ensures var out := BookSpec.Submit(old(py.View()), r, r.price);
              py.View() == out.0 && order.Rec() == out.1.order && trades == out.1.trades && resting == out.1.resting
    {
      hide BookSpec.Submit, Py.OrderBook.Valid, Cpp.OrderBook.Valid;
      NowhereQueued(this, r.id);
      hide Py.OrderBook.View, Cpp.OrderBook.View, NoId;
      ghost var before := py.View();
      order := new PyLevels.Order(r);
      node := new NativeLevels.OrderNode(r);
      trades, resting := SubmitPy(order);
      trades', resting' := SubmitCpp(node);
    }

    /** Both books cancel the same order, or neither does. */
    method Cancel(id: OrderId) returns (order: PyLevels.Order?, node: NativeLevels.OrderNode?)
      requires Valid()
      modifies py`cancelMap, py.bids, py.bids.levels, py.bids.queue`status, py.asks, py.asks.levels, py.asks.queue`status
      modifies cpp`cancelMap, cpp.bids, cpp.bids.levels, cpp.bids.queue, cpp.asks, cpp.asks.levels, cpp.asks.queue
      ensures Valid()
      ensures (order == null <==> node == null) && (order != null && node != null ==> order.Rec() == node.Rec())
      ensures (py.View(), if order == null then None else Some(order.Rec())) == BookSpec.Cancel(old(py.View()), id)
    {
      hide BookSpec.Cancel, Py.OrderBook.Valid, Cpp.OrderBook.Valid, Py.OrderBook.View, Cpp.OrderBook.View;
      order := CancelPy(id);
      node := CancelCpp(id);
    }

    /** Both books show the same depth as long as no total or count outgrows 32 bits. */
    method Snapshot(depth: nat) returns (a: Snapshot, b: Snapshot)
      requires Valid()
      ensures a == TakeSnapshot(py.View(), depth)
      ensures a == b <==> Agreement.FitsWords(a.bids) && Agreement.FitsWords(a.asks)
    {
      hide Py.OrderBook.Valid, Cpp.OrderBook.Valid, Py.OrderBook.View, Cpp.OrderBook.View;
      a := py.TakeSnapshot(depth);
      b := cpp.TakeSnapshot(depth);
      Agreement.RowsAgreeIff(a.bids);
      Agreement.RowsAgreeIff(a.asks);
    }
  }

  lemma {:induction false} NowhereQueued(m: Mirror, id: OrderId)
    requires m.py.View() == m.cpp.View() && NoId(id, m.py.View().bids) && NoId(id, m.py.View().asks)
    ensures forall i :: 0 <= i < |m.py.bids.queue| ==> m.py.bids.queue[i].id != id
    ensures forall i :: 0 <= i < |m.py.asks.queue| ==> m.py.asks.queue[i].id != id
    ensures forall i :: 0 <= i < |m.cpp.bids.queue| ==> m.cpp.bids.queue[i].id != id
    ensures forall i :: 0 <= i < |m.cpp.asks.queue| ==> m.cpp.asks.queue[i].id != id
    ensures m.cpp.symbol == m.py.symbol
  {
    assert forall i :: 0 <= i < |m.py.bids.queue| ==> m.py.View().bids[i] == m.py.bids.queue[i].Rec();
    assert forall i :: 0 <= i < |m.py.asks.queue| ==> m.py.View().asks[i] == m.py.asks.queue[i].Rec();
    assert forall i :: 0 <= i < |m.cpp.bids.queue| ==> m.cpp.View().bids[i] == m.cpp.bids.queue[i].Rec();
    assert forall i :: 0 <= i < |m.cpp.asks.queue| ==> m.cpp.View().asks[i] == m.cpp.asks.queue[i].Rec();
  }
}
