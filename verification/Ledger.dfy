/** A strategy's position and profit, kept by average cost, against plain cash accounting. */
module Ledger {
  import opened Domain

  /** One execution of an owned order. */
  datatype Fill = Fill(buy: bool, quantity: int, price: Price) {
    function Signed(): int { if buy then quantity else -quantity }
  }

  /** So many shares at such a price. */
  function Value(shares: int, price: real): real { shares as real * price }

  function Net(fills: seq<Fill>): int {
    if fills == [] then 0 else Net(fills[..|fills| - 1]) + fills[|fills| - 1].Signed()
  }

  /** Money received less money paid. */
  function Cash(fills: seq<Fill>): real {
    if fills == [] then 0.0
    else
      var last := fills[|fills| - 1];
      Cash(fills[..|fills| - 1]) - Value(last.Signed(), last.price)
  }

  function Notional(fills: seq<Fill>): real {
    if fills == [] then 0.0
    else
      var last := fills[|fills| - 1];
      Notional(fills[..|fills| - 1]) + Value(last.quantity, last.price)
  }

  function Abs(x: int): int { if x < 0 then -x else x }

  predicate SameSign(a: int, b: int) { (a > 0 && b > 0) || (a < 0 && b < 0) }

  predicate OppositeSign(a: int, b: int) { (a > 0 && b < 0) || (a < 0 && b > 0) }

  predicate AllPositive(fills: seq<Fill>) {
    forall i :: 0 <= i < |fills| ==> fills[i].quantity > 0
  }

  lemma {:induction false} Grown(fills: seq<Fill>, fill: Fill)
    ensures Net(fills + [fill]) == Net(fills) + fill.Signed()
    ensures Cash(fills + [fill]) == Cash(fills) - Value(fill.Signed(), fill.price)
    ensures Notional(fills + [fill]) == Notional(fills) + Value(fill.quantity, fill.price)
    ensures AllPositive(fills) && fill.quantity > 0 ==> AllPositive(fills + [fill])
  {
    assert (fills + [fill])[..|fills|] == fills;
  }

  /** The average-cost identity: what was realised is cash plus the open position at cost. */
  predicate Balanced(position: int, average: real, realised: real, cash: real) {
    realised - Value(position, average) == cash && (position == 0 ==> average == 0.0)
  }

  /** The open position is valued at the mark, once there is one. */
  predicate Marked(mark: Option<Price>, average: real, position: int, unrealised: real) {
    unrealised == if mark.None? then 0.0 else Value(position, mark.value - average)
  }

  /** The average entry price lies between bounds that every fill price respects. */
  predicate Within(position: int, average: real, low: real, high: real) {
    position != 0 ==> low <= average <= high
  }

  lemma {:induction false} Nothing()
    ensures AllPositive([]) && Net([]) == 0 && Cash([]) == 0.0 && Notional([]) == 0.0
    ensures Balanced(0, 0.0, 0.0, Cash([])) && Marked(None, 0.0, 0, 0.0)
  {
    assert Value(0, 0.0) == 0.0;
  }

  class StrategyLedger {
    var position: int
    var averageEntryPrice: real
    var realisedPnl: real
    var unrealisedPnl: real
    var markPrice: Option<Price>
    var totalFills: nat
    var totalNotional: real
    ghost var fills: seq<Fill>

    constructor ()
      ensures Valid() && fills == [] && markPrice == None && unrealisedPnl == 0.0
    {
      hide Balanced, Net, Cash, Notional, AllPositive, Marked, Value;
      position, averageEntryPrice, realisedPnl, unrealisedPnl := 0, 0.0, 0.0, 0.0;
      markPrice, totalFills, totalNotional, fills := None, 0, 0.0, [];
      Nothing();
    }

    ghost predicate Valid()
      reads this
    {
      && AllPositive(fills) && totalFills == |fills|
      && position == Net(fills) && Balanced(position, averageEntryPrice, realisedPnl, Cash(fills))
      && totalNotional == Notional(fills)
      && Marked(markPrice, averageEntryPrice, position, unrealisedPnl) && (markPrice.None? ==> fills == [])
    }

    function TotalPnl(): real
      reads this
    {
      realisedPnl + unrealisedPnl
    }

    /** Value the open position at a price; the total is then cash plus the position at that price. */
    method MarkToMarket(price: Price)
      requires Valid()
      modifies `markPrice, `unrealisedPnl
      ensures Valid() && markPrice == Some(price)
      ensures TotalPnl() == Cash(fills) + Value(position, price)
    {
      markPrice := Some(price);
      unrealisedPnl := Value(position, price - averageEntryPrice);
      MarkedTotal(position, averageEntryPrice, realisedPnl, Cash(fills), price);
    }

    /** A fill that opens or enlarges the position: blend its price into the average. */
    method AverageIn(signed: int, price: Price, ghost cash: real)
      requires Balanced(position, averageEntryPrice, realisedPnl, cash)
      requires signed != 0 && (position == 0 || position * signed > 0)
      modifies `averageEntryPrice
      ensures Balanced(position + signed, averageEntryPrice, realisedPnl, cash - Value(signed, price))
      ensures Bounded(position, old(averageEntryPrice), price, position + signed, averageEntryPrice)
    {
      hide Balanced, Within, Value, Blend, Abs;
      var newPosition := position + signed;
      SameWay(position, signed);
      var priorValue := Abs(position) as real * averageEntryPrice;
      var fillValue := Abs(signed) as real * price;
      AveragedIn(position, signed, averageEntryPrice, price, realisedPnl, cash);
      Blended(position, signed, averageEntryPrice, price, priorValue, fillValue);
      averageEntryPrice := (priorValue + fillValue) / Abs(newPosition) as real;
    }

    /** A fill against the position: realise the part it closes; past zero, start afresh at its price. */
    method Close(signed: int, price: Price, ghost cash: real)
      requires Balanced(position, averageEntryPrice, realisedPnl, cash)
      requires signed != 0 && position != 0 && !(position * signed > 0)
      modifies `averageEntryPrice, `realisedPnl
      ensures Balanced(position + signed, averageEntryPrice, realisedPnl, cash - Value(signed, price))
      ensures Bounded(position, old(averageEntryPrice), price, position + signed, averageEntryPrice)
      ensures SameSign(position, position + signed) ==> averageEntryPrice == old(averageEntryPrice)
      ensures OppositeSign(position, position + signed) ==> averageEntryPrice == price
    {
      OtherWay(position, signed);
      Realised(position, signed, averageEntryPrice, price, realisedPnl, cash);
      var closing := if Abs(position) <= Abs(signed) then Abs(position) else Abs(signed);
      var direction := if position > 0 then 1 else -1;
      realisedPnl := realisedPnl + (price - averageEntryPrice) * closing as real * direction as real;
      var newPosition := position + signed;
      Crossing(position, newPosition);
      if newPosition == 0 {
        averageEntryPrice := 0.0;
      } else if position * newPosition < 0 {
        averageEntryPrice := price;
      }
    }

    /** Book one fill: average in when the position grows, realise against the average when it shrinks or flips. */
    method OnFill(fill: Fill)
      requires Valid() && fill.quantity > 0
      modifies this
      ensures Valid() && fills == old(fills) + [fill]
      ensures position == old(position) + fill.Signed()
      ensures markPrice == Some(fill.price)
      ensures TotalPnl() == Cash(fills) + Value(position, fill.price)
      ensures Bounded(old(position), old(averageEntryPrice), fill.price, position, averageEntryPrice)
      ensures old(position) == 0 || SameSign(old(position), fill.Signed()) ==> realisedPnl == old(realisedPnl)
      ensures SameSign(old(position), position) && !SameSign(old(position), fill.Signed()) ==> averageEntryPrice == old(averageEntryPrice)
      ensures OppositeSign(old(position), position) ==> averageEntryPrice == fill.price
    {
      hide Balanced, Bounded, Net, Cash, Notional, AllPositive, Marked, Value, Fill.Signed;
      SignedNonZero(fill);
      Products(position, fill.Signed());
      var signed := fill.Signed();
      if position == 0 || position * signed > 0 {
        AverageIn(signed, fill.price, Cash(fills));
      } else {
        Close(signed, fill.price, Cash(fills));
      }
      position := position + signed;
      totalFills := totalFills + 1;
      totalNotional := totalNotional + Value(fill.quantity, fill.price);
      Grown(fills, fill);
      fills := fills + [fill];
      markPrice := Some(fill.price);
      unrealisedPnl := Value(position, fill.price - averageEntryPrice);
      MarkedTotal(position, averageEntryPrice, realisedPnl, Cash(fills), fill.price);
      MarkedAt(fill.price, averageEntryPrice, position, unrealisedPnl);
    }
  }

  lemma {:induction false} Products(a: int, b: int)
    ensures a * b > 0 <==> SameSign(a, b)
  {
    assert SameSign(a, b) ==> a * b > 0;
    assert OppositeSign(a, b) ==> a * b < 0;
  }

  lemma {:induction false} SignedNonZero(fill: Fill)
    requires fill.quantity > 0
    ensures fill.Signed() != 0
  {
  }

  lemma {:induction false} MarkedAt(price: real, average: real, position: int, unrealised: real)
    requires unrealised == Value(position, price - average)
    ensures Marked(Some(price), average, position, unrealised)
  {
  }

  /** An average that lay within bounds around `price` still does. */
  ghost predicate Bounded(position: int, average: real, price: real, position': int, average': real) {
    forall low: real, high: real :: low <= price <= high && Within(position, average, low, high) ==> Within(position', average', low, high)
  }

  lemma {:induction false} MarkedTotal(position: int, average: real, realised: real, cash: real, price: real)
    requires Balanced(position, average, realised, cash)
    ensures realised + Value(position, price - average) == cash + Value(position, price)
  {
  }

  lemma {:induction false} SameWay(position: int, signed: int)
    requires signed != 0 && (position == 0 || position * signed > 0)
    ensures Abs(position + signed) == Abs(position) + Abs(signed) && position + signed != 0
    ensures (position >= 0 && signed > 0) || (position <= 0 && signed < 0)
  {
    assert position > 0 && signed < 0 ==> position * signed < 0;
    assert position < 0 && signed > 0 ==> position * signed < 0;
  }

  lemma {:induction false} OtherWay(position: int, signed: int)
    requires signed != 0 && position != 0 && !(position * signed > 0)
    ensures (position > 0 && signed < 0) || (position < 0 && signed > 0)
  {
    assert position > 0 && signed > 0 ==> position * signed > 0;
    assert position < 0 && signed < 0 ==> position * signed > 0;
  }

  lemma {:induction false} Crossing(position: int, now: int)
    requires position != 0
    ensures position * now < 0 <==> (position > 0 && now < 0) || (position < 0 && now > 0)
  {
    if position > 0 {
      assert now < 0 ==> position * now < 0;
      assert now >= 0 ==> position * now >= 0;
    } else {
      assert now > 0 ==> position * now < 0;
      assert now <= 0 ==> position * now >= 0;
    }
  }

  /** The average of a grown position, weighted by size. */
  function Blend(position: int, signed: int, average: real, price: real): real
    requires position + signed != 0
  {
    (Abs(position) as real * average + Abs(signed) as real * price) / Abs(position + signed) as real
  }

  lemma {:induction false} Blended(position: int, signed: int, average: real, price: real, prior: real, fill: real)
    requires position + signed != 0 && prior == Abs(position) as real * average && fill == Abs(signed) as real * price
    ensures Abs(position + signed) as real != 0.0
    ensures (prior + fill) / Abs(position + signed) as real == Blend(position, signed, average, price)
  {
  }

  lemma {:induction false} Divided(x: real, d: real)
    requires d != 0.0
    ensures x / d * d == x
  {
  }

  /** A convex combination stays between bounds. */
  lemma {:induction false} Convex(p: real, q: real, a: real, b: real, low: real, high: real)
    requires p >= 0.0 && q >= 0.0 && p + q > 0.0 && (p > 0.0 ==> low <= a <= high) && low <= b <= high
    ensures low <= (p * a + q * b) / (p + q) <= high
  {
    var c := (p * a + q * b) / (p + q);
    Divided(p * a + q * b, p + q);
    assert p > 0.0 ==> p * low <= p * a <= p * high;
    assert p == 0.0 ==> p * a == 0.0;
    assert q * low <= q * b <= q * high;
    assert (p + q) * low == p * low + q * low;
    assert (p + q) * high == p * high + q * high;
    assert c < low ==> (p + q) * c < (p + q) * low;
    assert c > high ==> (p + q) * c > (p + q) * high;
  }

  /** The blended average carries the cost of both lots. */
  lemma {:induction false} BlendedCost(position: int, signed: int, average: real, price: real)
    requires position + signed != 0
    requires (position >= 0 && signed > 0) || (position <= 0 && signed < 0)
    ensures Blend(position, signed, average, price) * (position + signed) as real == average * position as real + price * signed as real
  {
    var p, q := Abs(position) as real, Abs(signed) as real;
    var now := Blend(position, signed, average, price);
    assert Abs(position + signed) as real == p + q;
    Divided(p * average + q * price, p + q);
    assert now * (p + q) == p * average + q * price;
    if signed > 0 {
      assert (position + signed) as real == p + q && position as real == p && signed as real == q;
    } else {
      assert (position + signed) as real == -(p + q) && position as real == -p && signed as real == -q;
      assert now * -(p + q) == -(now * (p + q));
      assert average * -p == -(average * p) && price * -q == -(price * q);
    }
  }

  lemma {:induction false} AveragedBalance(position: int, signed: int, average: real, price: real, realised: real, cash: real)
    requires Balanced(position, average, realised, cash) && position + signed != 0
    requires (position >= 0 && signed > 0) || (position <= 0 && signed < 0)
    ensures Balanced(position + signed, Blend(position, signed, average, price), realised, cash - Value(signed, price))
  {
    BlendedCost(position, signed, average, price);
    hide Blend;
  }

  lemma {:induction false} AveragedIn(position: int, signed: int, average: real, price: real, realised: real, cash: real)
    requires Balanced(position, average, realised, cash) && position + signed != 0
    requires (position >= 0 && signed > 0) || (position <= 0 && signed < 0)
    ensures Balanced(position + signed, Blend(position, signed, average, price), realised, cash - Value(signed, price))
    ensures forall low, high :: low <= price <= high && Within(position, average, low, high)
                                ==> Within(position + signed, Blend(position, signed, average, price), low, high)
  {
    var p, q := Abs(position) as real, Abs(signed) as real;
    var now := Blend(position, signed, average, price);
    hide Balanced;
    AveragedBalance(position, signed, average, price, realised, cash);
    assert Abs(position + signed) as real == p + q;
    assert now == (p * average + q * price) / (p + q);
    forall low, high | low <= price <= high && Within(position, average, low, high)
      ensures Within(position + signed, now, low, high)
    {
      Convex(p, q, average, price, low, high);
    }
  }

  /** Closing realises the difference to the average; what is left keeps its average, or starts afresh at the fill's price. */
  lemma {:induction false} Realised(position: int, signed: int, average: real, price: real, realised: real, cash: real)
    requires Balanced(position, average, realised, cash)
    requires (position > 0 && signed < 0) || (position < 0 && signed > 0)
    ensures var closing := if Abs(position) <= Abs(signed) then Abs(position) else Abs(signed);
            var direction := if position > 0 then 1 else -1;
            var now := position + signed;
            var average' := if now == 0 then 0.0 else if (position > 0) == (now > 0) then average else price;
            Balanced(now, average', realised + (price - average) * closing as real * direction as real, cash - Value(signed, price))
  {
    var p, q := position as real, signed as real;
    assert (position + signed) as real == p + q;
    if Abs(position) <= Abs(signed) {
      assert (price - average) * Abs(position) as real * (if position > 0 then 1 else -1) as real == (price - average) * p;
    } else {
      assert (price - average) * Abs(signed) as real * (if position > 0 then 1 else -1) as real == -((price - average) * q);
    }
    assert (price - average) * p == price * p - average * p;
    assert (price - average) * q == price * q - average * q;
    assert average * (p + q) == average * p + average * q;
    assert price * (p + q) == price * p + price * q;
  }
}
