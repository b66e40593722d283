/** Values shared by every component of the trading system. */
module Domain {

  datatype Option<+T> = None | Some(value: T)

  /** A 128-bit identifier, used only for equality. */
  type OrderId = int

  type Symbol = string

  type Price = real

  datatype Side = Buy | Sell {
    function Opposite(): Side { if Buy? then Sell else Buy }
  }

  datatype OrderType = Limit | Market

  datatype Tif = GTC | IOC | FOK | GTD

  datatype Status = Pending | Open | PartiallyFilled | Filled | Cancelled | Rejected

  /** The state of one order at one moment. */
  datatype OrderRec = OrderRec(
    id: OrderId, symbol: Symbol, side: Side, kind: OrderType, price: Option<Price>,
    quantity: int, tif: Tif, filled: int, status: Status)
  {
    function Remaining(): int { quantity - filled }

    /** The price a resting order is queued at; a resting order always has one. */
    function Px(): Price { if price.Some? then price.value else 0.0 }

    predicate IsActive() { status == Open || status == PartiallyFilled }
  }

  /** One execution: the maker was resting, the taker is the aggressor. */
  datatype Trade = Trade(symbol: Symbol, price: Price, quantity: int, aggressor: Side, maker: OrderId, taker: OrderId)

  /** One aggregated row of a depth snapshot. */
  datatype Level = Level(price: Price, quantity: int, count: int)

  datatype Snapshot = Snapshot(symbol: Symbol, sequence: nat, bids: seq<Level>, asks: seq<Level>)

  function Min(a: int, b: int): int { if a <= b then a else b }

  /** Some element of a set, whichever. */
  method Any<T(==)>(s: set<T>) returns (x: T)
    requires s != {}
    ensures x in s
  {
    x :| x in s;
  }

  function TradedQuantity(trades: seq<Trade>): int {
    if trades == [] then 0 else trades[0].quantity + TradedQuantity(trades[1..])
  }

  lemma {:induction false} TradedQuantityConcat(a: seq<Trade>, b: seq<Trade>)
    ensures TradedQuantity(a + b) == TradedQuantity(a) + TradedQuantity(b)
  {
    if a == [] {
      assert a + b == b;
    } else {
      assert (a + b)[1..] == a[1..] + b;
      TradedQuantityConcat(a[1..], b);
    }
  }
}
