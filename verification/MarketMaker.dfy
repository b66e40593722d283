/** The symmetric market maker: what it quotes, and when it quotes again. */
module MarketMaker {
  import opened Domain
  import opened Runtime

  class SimpleMarketMaker {
    const id: StrategyId
    const symbol: Symbol
    const spread: real
    const quoteSize: int
    const threshold: real
    const skew: real
    const maxPosition: int
    /** Rounding to the tick; how it rounds is the platform's business. */
    const round: real -> real
    var running: bool
    var lastQuotedMid: Option<Price>

    constructor (id: StrategyId, symbol: Symbol, spread: real, quoteSize: int, threshold: real, skew: real, maxPosition: int, round: real -> real)
      ensures this.id == id && this.symbol == symbol && this.spread == spread && this.quoteSize == quoteSize
      ensures this.threshold == threshold && this.skew == skew && this.maxPosition == maxPosition && this.round == round
      ensures !running && lastQuotedMid == None
    {
      this.id, this.symbol, this.spread, this.quoteSize := id, symbol, spread, quoteSize;
      this.threshold, this.skew, this.maxPosition, this.round := threshold, skew, maxPosition, round;
      running, lastQuotedMid := false, None;
    }

    /** Quoted recently enough: the mid has moved by less than the threshold. */
    predicate Fresh(mid: Price)
      reads this
    {
      lastQuotedMid.Some? && (if mid >= lastQuotedMid.value then mid - lastQuotedMid.value else lastQuotedMid.value - mid) < threshold
    }

    /** The mid, leaned against the inventory. */
    function Reservation(mid: Price, position: int): Price
      reads this
    {
      mid - (if maxPosition != 0 then position as real / maxPosition as real else 0.0) * skew
    }

    /** One new quote on a side. */
    function Quote(side: Side, price: Price): Proposal {
      Proposal(id, OrderRec(0, symbol, side, Limit, Some(price), quoteSize, GTC, 0, Pending), true)
    }

    /**
     Quote both sides around the inventory-adjusted mid, but no bid at or above the
     position limit and no ask at or below minus the limit; keep quiet while the last
     quotes are fresh.
     */
    method OnBookUpdate(mid: Option<Price>, position: int) returns (quotes: seq<Proposal>)
      modifies `lastQuotedMid
      ensures Quoting(Proposes(quotes), true)
      ensures var last := old(lastQuotedMid);
              var quiet := !running || mid.None? || (last.Some? && -threshold < mid.value - last.value < threshold);
              && (quiet ==> quotes == [] && lastQuotedMid == last)
              && (!quiet ==> lastQuotedMid == mid
                             && mid.Some? && ((exists q :: q in quotes && q.order.side.Buy?) <==> position < maxPosition)
                             && ((exists q :: q in quotes && q.order.side.Sell?) <==> position > -maxPosition))
      ensures forall q :: q in quotes ==>
                && q.strategy == id && q.order.symbol == symbol && q.order.kind.Limit? && q.order.tif.GTC? && q.order.price.Some?
                && q.order.quantity == quoteSize && q.order.filled == 0 && q.order.status.Pending?
      ensures forall q :: q in quotes ==>
                q.order.Px() == round(if q.order.side.Buy? then Reservation(mid.value, position) - spread else Reservation(mid.value, position) + spread)
      ensures Monotone(round) && spread >= 0.0 ==>
                forall b, a :: b in quotes && a in quotes && b.order.side.Buy? && a.order.side.Sell? ==> b.order.Px() <= a.order.Px()
    {
      quotes := [];
      if !running || mid.None? || Fresh(mid.value) {
        return;
      }
      lastQuotedMid := mid;
      var reservation := Reservation(mid.value, position);
      var bid, ask := Quote(Buy, round(reservation - spread)), Quote(Sell, round(reservation + spread));
      if position < maxPosition {
        quotes := quotes + [bid];
        assert bid in quotes;
      }
      if position > -maxPosition {
        quotes := quotes + [ask];
        assert ask in quotes;
      }
    }

    /**
     Two book updates in a row, the first of them news: the second is answered exactly
     if the mid has moved by the threshold or more, up or down.
     */
    method RequoteOnMove(first: Price, second: Price, position: int) returns (answers: seq<Proposal>)
      requires running && lastQuotedMid == None && threshold > 0.0 && maxPosition > 0
      modifies `lastQuotedMid
      ensures answers != [] <==> second >= first + threshold || second <= first - threshold
      ensures lastQuotedMid == Some(if answers != [] then second else first)
    {
      var quotes := OnBookUpdate(Some(first), position);
      answers := OnBookUpdate(Some(second), position);
      if second >= first + threshold || second <= first - threshold {
        var q :| q in answers && (q.order.side.Buy? || q.order.side.Sell?);
      }
    }

    /** Prints on the tape are not answered. */
    method OnTrade(trade: Trade) returns (quotes: seq<Proposal>)
      ensures Quoting(Proposes(quotes), false)
    {
      quotes := [];
    }

    /** After a fill of its own the next book update is always answered. */
    method OnFill()
      modifies `lastQuotedMid
      ensures lastQuotedMid == None && forall mid :: !Fresh(mid)
    {
      lastQuotedMid := None;
    }
  }

  /** Inventory leans both quotes towards flat: the longer, the lower; at the limits by the whole skew. */
  lemma {:induction false} SkewLeans(m: SimpleMarketMaker, mid: Price, p: int, q: int)
    requires m.maxPosition > 0 && m.skew >= 0.0 && p <= q
    ensures m.Reservation(mid, q) <= m.Reservation(mid, p)
    ensures m.maxPosition as real * (m.Reservation(mid, p) - m.Reservation(mid, q)) == (q - p) as real * m.skew
    ensures m.Reservation(mid, 0) == mid && m.Reservation(mid, m.maxPosition) == mid - m.skew && m.Reservation(mid, -m.maxPosition) == mid + m.skew
  {
    var d := m.maxPosition as real;
    Ratios(p as real, q as real, d);
    assert q as real / d * m.skew >= p as real / d * m.skew;
    assert d / d == 1.0 && -d / d == -1.0;
  }

  lemma {:induction false} Ratios(x: real, y: real, d: real)
    requires d > 0.0 && x <= y
    ensures x / d <= y / d
  {
    var a, b := x / d, y / d;
    assert a * d == x && b * d == y;
    assert a > b ==> a * d > b * d;
  }

  ghost predicate Monotone(f: real -> real) {
    forall x, y :: x <= y ==> f(x) <= f(y)
  }
}
