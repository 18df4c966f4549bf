/** Vocabulary shared by the two threshold orders: sides, symbols, the
    commands a tick emits, the child exchange order, the exchange response
    that refreshes it, the market quote, and the signed relative price
    difference both orders compare against their thresholds. */
module Trading {

  datatype Option<+T> = None | Some(value: T)

  datatype Side = Buy | Sell

  /** A market pair "BASE/QUOTE". */
  datatype Symbol = Symbol(base: string, quote: string)

  /** The command string an order leaves for the order manager after a tick:
      "new", "new tickers <symbol>", "hold tickers <symbol>",
      "cancel tickers <symbol>" and "" (nothing left to do). */
  datatype Command =
    | NewOrder
    | NewTickers(symbol: Symbol)
    | HoldTickers(symbol: Symbol)
    | CancelTickers(symbol: Symbol)
    | NoCommand

  /** Status of the governing (multi-child) order. */
  datatype OrderStatus = OrderOpen | OrderClosed

  /** Status of one child exchange order. */
  datatype ChildStatus = Open | Closed | Canceled

  /** One concrete exchange order: the governing order's current remainder. */
  datatype ChildOrder = ChildOrder(
    status: ChildStatus,
    amount: real,              // in base currency
    price: real,               // in quote currency
    filled: real,              // in base currency
    filledStartAmount: real,
    filledDestAmount: real,
    updateRequestsCount: nat)

  /** What one exchange response says about the child order. */
  datatype Response = Response(
    status: ChildStatus,
    filled: real,
    filledStartAmount: real,
    filledDestAmount: real)

  /** The market tick handed to an order, after the pair's ticker has been
      translated into an execution price for each execution style. */
  datatype Quote =
    | NoTicker                        // no market data this tick
    | TickerError                     // the ticker could not be translated
    | Prices(taker: real, maker: real)

  /** A freshly placed child order: open, nothing filled, never updated. */
  function NewChild(amount: real, price: real): ChildOrder
  {
    ChildOrder(Open, amount, price, 0.0, 0.0, 0.0, 0)
  }

  /** Folds an exchange response into the child order: the new status and
      cumulative fills, and one more update request. */
  function Refresh(c: ChildOrder, r: Response): ChildOrder
  {
    c.(status := r.status, filled := r.filled,
       filledStartAmount := r.filledStartAmount, filledDestAmount := r.filledDestAmount,
       updateRequestsCount := c.updateRequestsCount + 1)
  }

  /** What is left to fill of a child order. */
  function Remaining(c: ChildOrder): real
  {
    c.amount - c.filled
  }

  /** The child has used up its update cap and what remains of it is more
      than the cancel threshold, so re-pricing it is worthwhile. */
  predicate CapReached(child: ChildOrder, cap: int, cancelThreshold: real)
  {
    child.updateRequestsCount >= cap && Remaining(child) > cancelThreshold
  }

  /** Buying the base currency of the pair when it is the destination. */
  function TradeDirection(symbol: Symbol, destCurrency: string): Side
  {
    if destCurrency == symbol.base then Buy else Sell
  }

  /** The price (quote per base) at which startAmount converts into exactly
      destAmount. */
  function PriceForDestAmount(side: Side, startAmount: real, destAmount: real): (p: real)
    requires side == Sell ==> startAmount != 0.0
    requires side == Buy ==> destAmount != 0.0
    ensures side == Sell ==> startAmount * p == destAmount
    ensures side == Buy ==> destAmount * p == startAmount
  {
    if side == Sell then destAmount / startAmount else startAmount / destAmount
  }

  /** The share of the start amount that counts as a complete fill. */
  const CompletionRatio: real := 0.99999

  predicate Completes(filledStartAmount: real, startAmount: real)
  {
    filledStartAmount >= startAmount * CompletionRatio
  }

  /** Signed relative difference between a reference price and the current
      price: positive when the market moved in the trade's favour since the
      reference was set, negative when it moved against it; undefined when
      either price is not positive. */
  function RelativePriceDifference(side: Side, reference: real, current: real): (r: Option<real>)
    ensures r.Some? <==> reference > 0.0 && current > 0.0
    ensures r.Some? && side == Buy ==> r.value * reference == reference - current
    ensures r.Some? && side == Sell ==> r.value * reference == current - reference
  {
    if reference > 0.0 && current > 0.0 then
      Some(if side == Buy then (reference - current) / reference else (current - reference) / reference)
    else
      None
  }

  /** The difference is zero exactly when the price has not moved, and the
      two sides see the same move with opposite signs. */
  lemma PriceDifferenceZeroAndSymmetry(reference: real, current: real)
    requires reference > 0.0 && current > 0.0
    ensures RelativePriceDifference(Buy, reference, current).value == 0.0 <==> current == reference
    ensures RelativePriceDifference(Sell, reference, current).value == 0.0 <==> current == reference
    ensures RelativePriceDifference(Buy, reference, current).value
         == -RelativePriceDifference(Sell, reference, current).value
  {
  }

  /** A negative difference means the price moved against the trade: up for
      a buy, down for a sell. */
  lemma PriceDifferenceSign(side: Side, reference: real, current: real)
    requires reference > 0.0 && current > 0.0
    ensures side == Buy ==> (RelativePriceDifference(side, reference, current).value < 0.0 <==> current > reference)
    ensures side == Sell ==> (RelativePriceDifference(side, reference, current).value < 0.0 <==> current < reference)
  {
    var d := RelativePriceDifference(side, reference, current).value;
    if side == Buy {
      assert d * reference == reference - current;
    } else {
      assert d * reference == current - reference;
    }
  }

  /** A threshold on the difference is a price level: a buy breaches
      threshold t once the price reaches reference * (1 - t), a sell once it
      falls to reference * (1 + t). */
  lemma PriceDifferenceThreshold(side: Side, reference: real, current: real, t: real)
    requires reference > 0.0 && current > 0.0
    ensures side == Buy ==>
      (RelativePriceDifference(side, reference, current).value <= t <==> current >= reference * (1.0 - t))
    ensures side == Sell ==>
      (RelativePriceDifference(side, reference, current).value <= t <==> current <= reference * (1.0 + t))
  {
    var d := RelativePriceDifference(side, reference, current).value;
    if side == Buy {
      assert d * reference == reference - current;
      assert d <= t <==> d * reference <= t * reference;
    } else {
      assert d * reference == current - reference;
      assert d <= t <==> d * reference <= t * reference;
    }
  }

  /** The values the source's unit tests check: a buy referenced at 1 sees
      -0.1 at 1.1, -0.01 at 1.01, 0 at 1 and 0.1 at 0.9; a sell referenced
      at 1 sees 0 at 1, -0.1 at 0.9 and -0.01 at 0.99. */
  lemma PriceDifferenceExamples()
    ensures RelativePriceDifference(Buy, 1.0, 1.1) == Some(-0.1)
    ensures RelativePriceDifference(Buy, 1.0, 1.01) == Some(-0.01)
    ensures RelativePriceDifference(Buy, 1.0, 1.0) == Some(0.0)
    ensures RelativePriceDifference(Buy, 1.0, 0.9) == Some(0.1)
    ensures RelativePriceDifference(Sell, 1.0, 1.0) == Some(0.0)
    ensures RelativePriceDifference(Sell, 1.0, 0.9) == Some(-0.1)
    ensures RelativePriceDifference(Sell, 1.0, 0.99) == Some(-0.01)
  {
  }
}
