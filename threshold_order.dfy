/** The threshold recovery order: converts a start amount into a target
    destination amount with a limit order at the "best" price; when the
    market moves past a threshold or the order goes stale it is re-issued,
    for good, at the current market price for whatever is left. */
module ThresholdRecovery {
  import opened Trading
  import opened Ledgers

  datatype Phase = BestAmount | MarketPrice

  const BelowThresholdTag: string := "#below_threshold"

  /** What is fixed when the order is created (the best price included: it
      is computed once, when the first child is placed). */
  datatype Config = Config(
    symbol: Symbol,
    startCurrency: string,
    startAmount: real,
    destCurrency: string,
    bestDestAmount: real,
    takerPriceThreshold: real,
    fee: real,                        // stored, never read
    cancelThreshold: real,
    maxBestAmountOrdersUpdates: int,
    maxOrderUpdates: int,
    side: Side,
    amount: real,
    bestPrice: real)

  /** What a tick changes. */
  datatype Order = Order(
    status: OrderStatus,
    state: Phase,
    orderCommand: Command,
    tags: seq<string>,
    ledger: Ledger,
    active: Option<ChildOrder>,
    filled: real,
    filledStartAmount: real,
    filledDestAmount: real,
    filledPrice: real,
    prevPriceDiff: Option<real>)

  datatype Event = Event(resp: Response, quote: Quote)

  /** The divisions creation performs are defined: the best price needs a
      non-zero divisor, and a buy converts its start amount into base units
      at that price. */
  predicate Creatable(symbol: Symbol, startAmount: real, destCurrency: string, destAmount: real)
  {
    var side := TradeDirection(symbol, destCurrency);
    (side == Sell ==> startAmount != 0.0) &&
    (side == Buy ==> destAmount != 0.0 && startAmount != 0.0)
  }

  /** The target amount is in base units: the destination amount of a buy,
      the start amount of a sell. */
  function TargetAmount(side: Side, startAmount: real, destAmount: real): real
  {
    if side == Buy then destAmount else startAmount
  }

  function MakeConfig(symbol: Symbol, startCurrency: string, startAmount: real,
                      destCurrency: string, destAmount: real := 0.0,
                      takerPriceThreshold: real := -0.01, fee: real := 0.0,
                      cancelThreshold: real := 0.000001, maxBestAmountOrderUpdates: int := 50,
                      maxOrderUpdates: int := 10): Config
    requires Creatable(symbol, startAmount, destCurrency, destAmount)
  {
    var side := TradeDirection(symbol, destCurrency);
    Config(symbol, startCurrency, startAmount, destCurrency, destAmount, takerPriceThreshold, fee,
           cancelThreshold, maxBestAmountOrderUpdates, maxOrderUpdates, side,
           TargetAmount(side, startAmount, destAmount), PriceForDestAmount(side, startAmount, destAmount))
  }

  /** Base units of a child order that spends `startAmount` at `price`. */
  function ChildAmountFor(side: Side, startAmount: real, price: real): real
    requires side == Buy ==> price != 0.0
  {
    if side == Sell then startAmount else startAmount / price
  }

  /** A child for what is left of the start amount, at `price`. */
  function RecoveryChild(c: Config, filledStartAmount: real, price: real): ChildOrder
    requires c.side == Buy ==> price != 0.0
  {
    NewChild(ChildAmountFor(c.side, c.startAmount - filledStartAmount, price), price)
  }

  /** Every order reachable from Init satisfies this: the totals are the
      ledger plus the active child, no tag is repeated, and the order is
      closed exactly when no child is active. */
  predicate Valid(o: Order)
  {
    Accounted(o.ledger, o.active, o.filled, o.filledStartAmount, o.filledDestAmount) &&
    NoDuplicates(o.tags) &&
    (o.status == OrderClosed <==> o.active.None?)
  }

  /** The order right after creation: open, in BestAmount, one child placed
      at the best price, command "new tickers <symbol>". */
  function Init(c: Config): (o: Order)
    requires c.side == Buy ==> c.bestPrice != 0.0
    ensures o.status == OrderOpen && o.state == BestAmount && o.orderCommand == NewTickers(c.symbol)
    ensures o.active.Some? && o.active.value.price == c.bestPrice && o.active.value.status == Open
    ensures o.ledger.history == [] && o.tags == []
    ensures Valid(o)
  {
    Order(OrderOpen, BestAmount, NewTickers(c.symbol), [], EmptyLedger,
          Some(RecoveryChild(c, 0.0, c.bestPrice)), 0.0, 0.0, 0.0, 0.0, Some(0.0))
  }

  /** The first child delivers exactly the target: a sell spends the whole
      start amount and receives the destination amount, a buy spends the
      start amount and receives the destination amount of base currency. */
  lemma InitialChildMeetsTarget(symbol: Symbol, startCurrency: string, startAmount: real,
                                destCurrency: string, destAmount: real, takerPriceThreshold: real,
                                fee: real, cancelThreshold: real, maxBestAmountOrderUpdates: int,
                                maxOrderUpdates: int)
    requires Creatable(symbol, startAmount, destCurrency, destAmount)
    ensures var c := MakeConfig(symbol, startCurrency, startAmount, destCurrency, destAmount,
                                takerPriceThreshold, fee, cancelThreshold,
                                maxBestAmountOrderUpdates, maxOrderUpdates);
      c.side == Buy ==> c.bestPrice != 0.0
    ensures var c := MakeConfig(symbol, startCurrency, startAmount, destCurrency, destAmount,
                                takerPriceThreshold, fee, cancelThreshold,
                                maxBestAmountOrderUpdates, maxOrderUpdates);
      var child := Init(c).active.value;
      child.amount == c.amount &&
      (c.side == Sell ==> child.amount == startAmount && child.amount * child.price == destAmount) &&
      (c.side == Buy ==> child.amount == destAmount && child.amount * child.price == startAmount)
  {
    var c := MakeConfig(symbol, startCurrency, startAmount, destCurrency, destAmount,
                        takerPriceThreshold, fee, cancelThreshold,
                        maxBestAmountOrderUpdates, maxOrderUpdates);
    var p := c.bestPrice;
    if c.side == Buy {
      assert destAmount * p == startAmount && startAmount != 0.0;
      Quotient(startAmount, p, destAmount);
    }
  }

  /** Dividing a product by one of its non-zero factors gives the other. */
  lemma Quotient(a: real, b: real, q: real)
    requires b != 0.0 && q * b == a
    ensures a / b == q
  {
  }

  /** The per-child update cap of a phase. */
  function CapFor(c: Config, state: Phase): int
  {
    if state == BestAmount then c.maxBestAmountOrdersUpdates else c.maxOrderUpdates
  }

  /** The market has moved past the threshold relative to the best price. */
  predicate BelowThreshold(c: Config, quote: Quote)
  {
    quote.Prices? && quote.taker > 0.0 &&
    var d := RelativePriceDifference(c.side, c.bestPrice, quote.taker);
    d.Some? && d.value <= c.takerPriceThreshold
  }

  /** The stale-child check: cancel once the cap is reached. */
  function CapCheck(c: Config, o: Order, child: ChildOrder, cap: int): Order
  {
    if CapReached(child, cap, c.cancelThreshold) then o.(orderCommand := CancelTickers(c.symbol)) else o
  }

  /** A tick whose active child is still open. */
  function OnOpen(c: Config, o: Order, child: ChildOrder, quote: Quote): (r: Order)
    // nothing but the cached difference, the tags and the command changes
    ensures r.status == o.status && r.state == o.state && r.ledger == o.ledger && r.active == o.active
    ensures r.filled == o.filled && r.filledStartAmount == o.filledStartAmount
    ensures r.filledDestAmount == o.filledDestAmount && r.filledPrice == o.filledPrice
    ensures r.orderCommand == HoldTickers(c.symbol) || r.orderCommand == CancelTickers(c.symbol)
    // the difference against the best price is cached on every priced BestAmount tick
    ensures o.state == BestAmount && quote.Prices? && quote.taker > 0.0 ==>
      r.prevPriceDiff == RelativePriceDifference(c.side, c.bestPrice, quote.taker)
    ensures !(o.state == BestAmount && quote.Prices? && quote.taker > 0.0) ==>
      r.prevPriceDiff == o.prevPriceDiff
    ensures o.state == BestAmount && BelowThreshold(c, quote) ==>
      r.orderCommand == CancelTickers(c.symbol) && r.tags == AddTag(o.tags, BelowThresholdTag)
    ensures !(o.state == BestAmount && BelowThreshold(c, quote)) ==>
      r.tags == o.tags &&
      (r.orderCommand == CancelTickers(c.symbol) <==> CapReached(child, CapFor(c, o.state), c.cancelThreshold))
    ensures NoDuplicates(o.tags) ==> NoDuplicates(r.tags)
  {
    if o.state == BestAmount then
      var o1 := o.(orderCommand := HoldTickers(c.symbol));
      var o2 := if quote.Prices? && quote.taker > 0.0
                then o1.(prevPriceDiff := RelativePriceDifference(c.side, c.bestPrice, quote.taker))
                else o1;
      if BelowThreshold(c, quote) then
        o2.(orderCommand := CancelTickers(c.symbol), tags := AddTag(o.tags, BelowThresholdTag))
      else
        CapCheck(c, o2, child, c.maxBestAmountOrdersUpdates)
    else
      CapCheck(c, o.(orderCommand := HoldTickers(c.symbol)), child, c.maxOrderUpdates)
  }

  /** A tick whose active child has closed or been cancelled. */
  function OnClosed(c: Config, o: Order, child: ChildOrder, quote: Quote): (r: Order)
    requires !Completes(o.filledStartAmount, c.startAmount) && !quote.NoTicker? ==>
      quote.Prices? && (c.side == Buy ==> quote.taker != 0.0)
    ensures r.tags == o.tags && r.prevPriceDiff == o.prevPriceDiff && r.filledPrice == o.filledPrice
    ensures r.filled == o.filled && r.filledStartAmount == o.filledStartAmount
    ensures r.filledDestAmount == o.filledDestAmount
    // completion: retire the child, close, state untouched
    ensures Completes(o.filledStartAmount, c.startAmount) ==>
      r.orderCommand == NoCommand && r.status == OrderClosed && r.state == o.state &&
      r.ledger == CloseActive(o.ledger, child) && r.active == None
    // otherwise the order moves to MarketPrice for good
    ensures !Completes(o.filledStartAmount, c.startAmount) ==>
      r.state == MarketPrice && r.status == o.status
    ensures !Completes(o.filledStartAmount, c.startAmount) && quote.Prices? ==>
      r.orderCommand == NewOrder && r.ledger == CloseActive(o.ledger, child) &&
      r.active == Some(RecoveryChild(c, o.filledStartAmount, quote.taker))
    ensures !Completes(o.filledStartAmount, c.startAmount) && !quote.Prices? ==>
      r.orderCommand == HoldTickers(c.symbol) && r.ledger == o.ledger && r.active == o.active
    ensures o.active == Some(child) && Valid(o) ==> Valid(r)
  {
    if Completes(o.filledStartAmount, c.startAmount) then
      o.(orderCommand := NoCommand, ledger := CloseActive(o.ledger, child), active := None,
         status := OrderClosed)
    else
      var o1 := o.(state := MarketPrice);
      if quote.NoTicker? then
        o1.(orderCommand := HoldTickers(c.symbol))
      else
        o1.(ledger := CloseActive(o.ledger, child),
            active := Some(RecoveryChild(c, o.filledStartAmount, quote.taker)),
            orderCommand := NewOrder)
  }

  /** The average execution price, quote per base, once both filled amounts
      are non-zero; until then the previous value stays. */
  function FilledPrice(side: Side, filledStartAmount: real, filledDestAmount: real, previous: real): (p: real)
    ensures filledStartAmount != 0.0 && filledDestAmount != 0.0 && side == Buy ==>
      p * filledDestAmount == filledStartAmount
    ensures filledStartAmount != 0.0 && filledDestAmount != 0.0 && side == Sell ==>
      p * filledStartAmount == filledDestAmount
    ensures filledStartAmount == 0.0 || filledDestAmount == 0.0 ==> p == previous
  {
    if filledDestAmount != 0.0 && filledStartAmount != 0.0 then
      if side == Buy then filledStartAmount / filledDestAmount else filledDestAmount / filledStartAmount
    else previous
  }

  /** The active child replaced by its refreshed snapshot and every total
      recomputed as the previous fills plus the child's. */
  function Accumulate(c: Config, o: Order, child: ChildOrder): Order
  {
    var fs := o.ledger.prevFilledStartAmount + child.filledStartAmount;
    var fd := o.ledger.prevFilledDestAmount + child.filledDestAmount;
    o.(active := Some(child),
       filledDestAmount := fd,
       filledStartAmount := fs,
       filledPrice := FilledPrice(c.side, fs, fd, o.filledPrice),
       filled := o.ledger.prevFilled + child.filled)
  }

  /** The source cannot process a tick without an active child, nor one
      whose retired child leaves the order incomplete while the ticker fails
      to translate, or translates into a zero price for a buy. */
  predicate CanTick(c: Config, o: Order, e: Event)
  {
    o.active.Some? &&
    (e.resp.status != Open &&
     !Completes(o.ledger.prevFilledStartAmount + e.resp.filledStartAmount, c.startAmount) &&
     !e.quote.NoTicker? ==>
       e.quote.Prices? && (c.side == Buy ==> e.quote.taker != 0.0))
  }

  /** One tick: refresh the active child, recompute every total as previous
      fills plus the child's, then act on the child's status. */
  function Tick(c: Config, o: Order, e: Event): (r: Order)
    requires CanTick(c, o, e)
    ensures r.filled == o.ledger.prevFilled + e.resp.filled
    ensures r.filledStartAmount == o.ledger.prevFilledStartAmount + e.resp.filledStartAmount
    ensures r.filledDestAmount == o.ledger.prevFilledDestAmount + e.resp.filledDestAmount
    ensures r.filledStartAmount != 0.0 && r.filledDestAmount != 0.0 && c.side == Buy ==>
      r.filledPrice * r.filledDestAmount == r.filledStartAmount
    ensures r.filledStartAmount != 0.0 && r.filledDestAmount != 0.0 && c.side == Sell ==>
      r.filledPrice * r.filledStartAmount == r.filledDestAmount
    ensures r.filledStartAmount == 0.0 || r.filledDestAmount == 0.0 ==> r.filledPrice == o.filledPrice
    ensures o.state == MarketPrice ==> r.state == MarketPrice
    ensures e.resp.status == Open ==>
      r.ledger == o.ledger && r.status == o.status && r.state == o.state &&
      r.active == Some(Refresh(o.active.value, e.resp))
    // the order completes, and the command goes empty, only at the tolerance
    ensures r.orderCommand == NoCommand <==>
      e.resp.status != Open && Completes(r.filledStartAmount, c.startAmount)
    ensures r.status == OrderClosed <==>
      o.status == OrderClosed || (e.resp.status != Open && Completes(r.filledStartAmount, c.startAmount))
    // a tick retires at most one child
    ensures r.ledger == o.ledger || r.ledger == CloseActive(o.ledger, Refresh(o.active.value, e.resp))
    ensures Valid(o) ==> Valid(r)
  {
    var child := Refresh(o.active.value, e.resp);
    var o1 := Accumulate(c, o, child);
    if child.status == Open then OnOpen(c, o1, child, e.quote) else OnClosed(c, o1, child, e.quote)
  }

  /** Ticks applied in order, up to the first one the source cannot process. */
  function Run(c: Config, o: Order, events: seq<Event>): Order
    decreases |events|
  {
    if events == [] || !CanTick(c, o, events[0]) then o
    else Run(c, Tick(c, o, events[0]), events[1..])
  }

  /** Once at the market price, no sequence of ticks returns the order to
      BestAmount. */
  lemma {:induction false} RunKeepsMarketPrice(c: Config, o: Order, events: seq<Event>)
    requires o.state == MarketPrice
    ensures Run(c, o, events).state == MarketPrice
    decreases |events|
  {
    if events != [] && CanTick(c, o, events[0]) {
      RunKeepsMarketPrice(c, Tick(c, o, events[0]), events[1..]);
    }
  }

  /** Every tick sequence keeps the ledger accounting, the duplicate-free
      tags and "closed exactly when no child is active". */
  lemma {:induction false} RunPreservesValid(c: Config, o: Order, events: seq<Event>)
    requires Valid(o)
    ensures Valid(Run(c, o, events))
    decreases |events|
  {
    if events != [] && CanTick(c, o, events[0]) {
      RunPreservesValid(c, Tick(c, o, events[0]), events[1..]);
    }
  }

  /** The history only grows, by one child per retirement at most per tick,
      so it never exceeds the number of ticks processed. */
  lemma {:induction false} RunExtendsHistory(c: Config, o: Order, events: seq<Event>)
    ensures o.ledger.history <= Run(c, o, events).ledger.history
    ensures |Run(c, o, events).ledger.history| <= |o.ledger.history| + |events|
    decreases |events|
  {
    if events != [] && CanTick(c, o, events[0]) {
      RunExtendsHistory(c, Tick(c, o, events[0]), events[1..]);
    }
  }

  /** From creation on, whatever the ticks, every total is the sum over the
      retired children plus the active child's fill, and the tag list never
      holds a marker twice. */
  lemma {:induction false} FromInitAccountedAndTagsUnique(c: Config, events: seq<Event>)
    requires c.side == Buy ==> c.bestPrice != 0.0
    ensures var o := Run(c, Init(c), events);
      o.filled == SumFilled(o.ledger.history) + ActiveFilled(o.active) &&
      o.filledStartAmount == SumFilledStart(o.ledger.history) + ActiveFilledStart(o.active) &&
      o.filledDestAmount == SumFilledDest(o.ledger.history) + ActiveFilledDest(o.active) &&
      NoDuplicates(o.tags)
  {
    RunPreservesValid(c, Init(c), events);
  }

  /** The settings of the recovery order the source's tests create: sell
      1000 ADA for 0.32485131 ETH on ADA/ETH, cancel threshold 0.000001, caps
      50 (best amount) and 10 (market price). */
  predicate AdaEthSell(c: Config, takerPriceThreshold: real)
  {
    c.side == Sell && c.startAmount == 1000.0 && c.amount == 1000.0 &&
    c.bestPrice == 0.00032485131 && c.takerPriceThreshold == takerPriceThreshold &&
    c.cancelThreshold == 0.000001 && c.maxBestAmountOrdersUpdates == 50 && c.maxOrderUpdates == 10
  }

  /** Creating the test's order yields those settings: a sell of the whole
      start amount at the best price 0.32485131 / 1000. */
  lemma AdaEthSellIsCreated(takerPriceThreshold: real)
    ensures Creatable(Symbol("ADA", "ETH"), 1000.0, "ETH", 0.32485131)
    ensures AdaEthSell(MakeConfig(Symbol("ADA", "ETH"), "ADA", 1000.0, "ETH", 0.32485131,
                                  takerPriceThreshold), takerPriceThreshold)
  {
  }

  /** A half fill holds at the best price; the full fill closes the order in
      BestAmount with one child in the history. */
  lemma FillAtBestAmount(c: Config)
    requires AdaEthSell(c, -0.01)
    ensures var o1 := Tick(c, Init(c), Event(Response(Open, 500.0, 500.0, 0.32485131 / 2.0), NoTicker));
      o1.filledStartAmount == 500.0 && o1.filled == 500.0 && o1.status == OrderOpen &&
      o1.state == BestAmount && o1.orderCommand == HoldTickers(c.symbol) &&
      o1.filledPrice == o1.active.value.price &&
      var o2 := Tick(c, o1, Event(Response(Closed, 1000.0, 1000.0, 0.32485131), NoTicker));
      o2.filledStartAmount == 1000.0 && o2.filled == 1000.0 && o2.status == OrderClosed &&
      o2.orderCommand == NoCommand && o2.state == BestAmount && |o2.ledger.history| == 1
  {
    var o0 := Init(c);
    assert o0.active == Some(NewChild(1000.0, 0.00032485131));
    var r1 := Response(Open, 500.0, 500.0, 0.32485131 / 2.0);
    var o1 := Tick(c, o0, Event(r1, NoTicker));
    assert o1.active == Some(Refresh(o0.active.value, r1));
    assert !CapReached(o1.active.value, CapFor(c, BestAmount), c.cancelThreshold);
    var r2 := Response(Closed, 1000.0, 1000.0, 0.32485131);
    var o2 := Tick(c, o1, Event(r2, NoTicker));
    assert o2.ledger == CloseActive(o1.ledger, Refresh(o1.active.value, r2));
  }

  /** A bid 2.1% under the best price breaches a -2% threshold: the child is
      cancelled and tagged, and the order stays in BestAmount. */
  lemma CancelBelowThreshold(c: Config, maker: real)
    requires AdaEthSell(c, -0.02)
    ensures var o1 := Tick(c, Init(c), Event(Response(Open, 500.0, 500.0, 0.32485131 / 2.0), NoTicker));
      var o2 := Tick(c, o1, Event(Response(Open, 500.0, 500.0, 0.32485131 / 2.0),
                                  Prices(0.00032485131 * (1.0 - 0.021), maker)));
      o2.orderCommand == CancelTickers(c.symbol) && BelowThresholdTag in o2.tags &&
      o2.state == BestAmount
  {
    var r := Response(Open, 500.0, 500.0, 0.32485131 / 2.0);
    var o1 := Tick(c, Init(c), Event(r, NoTicker));
    assert o1.state == BestAmount;
    var q := Prices(0.00032485131 * (1.0 - 0.021), maker);
    PriceDifferenceThreshold(Sell, c.bestPrice, q.taker, -0.02);
    assert BelowThreshold(c, q);
  }

  /** The buy the source's tests create: spend 0.32485131 ETH for 1000 ADA on
      ADA/ETH, with the same cancel threshold and caps. */
  predicate AdaEthBuy(c: Config, takerPriceThreshold: real)
  {
    c.side == Buy && c.startAmount == 0.32485131 && c.amount == 1000.0 &&
    c.bestPrice == 0.00032485131 && c.takerPriceThreshold == takerPriceThreshold &&
    c.cancelThreshold == 0.000001 && c.maxBestAmountOrdersUpdates == 50 && c.maxOrderUpdates == 10
  }

  /** Creating that order yields those settings: ADA is the base currency, so
      the order buys 1000 ADA at the best price 0.32485131 / 1000. */
  lemma AdaEthBuyIsCreated(takerPriceThreshold: real)
    ensures Creatable(Symbol("ADA", "ETH"), 0.32485131, "ADA", 1000.0)
    ensures AdaEthBuy(MakeConfig(Symbol("ADA", "ETH"), "ETH", 0.32485131, "ADA", 1000.0,
                                 takerPriceThreshold), takerPriceThreshold)
  {
  }

  /** For the buy, an ask 2.1% over the best price breaches -2%: after a half
      fill that holds, the child is cancelled and tagged, still in BestAmount. */
  lemma CancelAboveThresholdBuy(c: Config, maker: real)
    requires AdaEthBuy(c, -0.02)
    ensures var r := Response(Open, 500.0, 0.32485131 / 2.0, 500.0);
      var o1 := Tick(c, Init(c), Event(r, NoTicker));
      o1.filledStartAmount == 0.32485131 / 2.0 && o1.filled == 500.0 && o1.status == OrderOpen &&
      o1.state == BestAmount && o1.orderCommand == HoldTickers(c.symbol) &&
      var o2 := Tick(c, o1, Event(r, Prices(0.00032485131 * (1.0 + 0.021), maker)));
      o2.orderCommand == CancelTickers(c.symbol) && BelowThresholdTag in o2.tags &&
      o2.state == BestAmount
  {
    var r := Response(Open, 500.0, 0.32485131 / 2.0, 500.0);
    var o0 := Init(c);
    var o1 := Tick(c, o0, Event(r, NoTicker));
    assert o1.active == Some(Refresh(o0.active.value, r));
    assert !CapReached(o1.active.value, CapFor(c, BestAmount), c.cancelThreshold);
    var q := Prices(0.00032485131 * (1.0 + 0.021), maker);
    PriceDifferenceThreshold(Buy, c.bestPrice, q.taker, -0.02);
    assert BelowThreshold(c, q);
  }

  /** The order object: configuration fixed at creation, phase, tags, cached
      price difference and fill ledger updated in place tick by tick. */
  class ThresholdRecoveryOrder {
    const symbol: Symbol
    const startCurrency: string
    const startAmount: real
    const destCurrency: string
    const bestDestAmount: real
    const takerPriceThreshold: real
    const fee: real
    const cancelThreshold: real
    const maxBestAmountOrdersUpdates: int
    const maxOrderUpdates: int
    const side: Side
    const amount: real

    var bestPrice: real
    var status: OrderStatus
    var state: Phase
    var orderCommand: Command
    var tags: seq<string>
    var ledger: Ledger
    var activeTradeOrder: Option<ChildOrder>
    var filled: real
    var filledStartAmount: real
    var filledDestAmount: real
    var filledPrice: real
    var prevPriceDiff: Option<real>

    function Settings(): Config
      reads this
    {
      Config(symbol, startCurrency, startAmount, destCurrency, bestDestAmount, takerPriceThreshold,
             fee, cancelThreshold, maxBestAmountOrdersUpdates, maxOrderUpdates, side, amount, bestPrice)
    }

    function View(): Order
      reads this
    {
      Order(status, state, orderCommand, tags, ledger, activeTradeOrder, filled, filledStartAmount,
            filledDestAmount, filledPrice, prevPriceDiff)
    }

    constructor (symbol: Symbol, startCurrency: string, startAmount: real, destCurrency: string,
                 destAmount: real := 0.0, takerPriceThreshold: real := -0.01, fee: real := 0.0,
                 cancelThreshold: real := 0.000001, maxBestAmountOrderUpdates: int := 50,
                 maxOrderUpdates: int := 10)
      requires Creatable(symbol, startAmount, destCurrency, destAmount)
      ensures side == TradeDirection(symbol, destCurrency)
      ensures amount == if side == Buy then destAmount else startAmount
      ensures bestPrice == PriceForDestAmount(side, startAmount, destAmount)
      ensures Settings() == MakeConfig(symbol, startCurrency, startAmount, destCurrency, destAmount,
                                       takerPriceThreshold, fee, cancelThreshold,
                                       maxBestAmountOrderUpdates, maxOrderUpdates)
      ensures View() == Init(Settings())
      ensures Valid(View())
    {
      this.symbol := symbol;
      this.startCurrency := startCurrency;
      this.startAmount := startAmount;
      this.destCurrency := destCurrency;
      this.fee := fee;
      this.cancelThreshold := cancelThreshold;
      this.bestDestAmount := destAmount;
      this.takerPriceThreshold := takerPriceThreshold;
      this.maxBestAmountOrdersUpdates := maxBestAmountOrderUpdates;
      this.maxOrderUpdates := maxOrderUpdates;
      var side := TradeDirection(symbol, destCurrency);
      this.side := side;
      this.amount := if side == Buy then destAmount else startAmount;
      bestPrice := 0.0;
      state := BestAmount;
      filledDestAmount, filledStartAmount, filledPrice, filled := 0.0, 0.0, 0.0, 0.0;
      activeTradeOrder := None;
      ledger := EmptyLedger;
      tags := [];
      prevPriceDiff := Some(0.0);
      new;
      InitBestAmount();
    }

    /** Places the first child at the best price and enters BestAmount. */
    method InitBestAmount()
      requires side == Sell ==> startAmount != 0.0
      requires side == Buy ==> bestDestAmount != 0.0 && startAmount != 0.0
      modifies this`bestPrice, this`status, this`state, this`activeTradeOrder, this`orderCommand
      ensures bestPrice == PriceForDestAmount(side, startAmount, bestDestAmount)
      ensures side == Buy ==> bestPrice != 0.0
      ensures status == OrderOpen && state == BestAmount && orderCommand == NewTickers(symbol)
      ensures activeTradeOrder == Some(RecoveryChild(Settings(), 0.0, bestPrice))
    {
      var price := PriceForDestAmount(side, startAmount, bestDestAmount);
      status := OrderOpen;
      state := BestAmount;
      bestPrice := price;
      activeTradeOrder := Some(RecoveryChild(Settings(), 0.0, price));
      orderCommand := NewTickers(symbol);
    }

    /** Retires the active child into the ledger. */
    method CloseActiveOrder()
      requires activeTradeOrder.Some?
      modifies this`ledger, this`activeTradeOrder
      ensures ledger == CloseActive(old(ledger), old(activeTradeOrder.value))
      ensures activeTradeOrder == None
    {
      ledger := CloseActive(ledger, activeTradeOrder.value);
      activeTradeOrder := None;
    }

    /** One tick: the response refreshes the active child, the totals are
        recomputed, and the phase, tags and command follow the child's
        status, the market and the caps. */
    method UpdateFromExchange(resp: Response, quote: Quote) returns (cmd: Command)
      requires CanTick(Settings(), View(), Event(resp, quote))
      modifies this`status, this`state, this`orderCommand, this`tags, this`ledger,
               this`activeTradeOrder, this`filled, this`filledStartAmount, this`filledDestAmount,
               this`filledPrice, this`prevPriceDiff
      ensures Settings() == old(Settings())
      ensures View() == Tick(Settings(), old(View()), Event(resp, quote))
      ensures cmd == orderCommand
    {
      var child := Refresh(activeTradeOrder.value, resp);
      activeTradeOrder := Some(child);
      filledDestAmount := ledger.prevFilledDestAmount + child.filledDestAmount;
      filledStartAmount := ledger.prevFilledStartAmount + child.filledStartAmount;
      if filledDestAmount != 0.0 && filledStartAmount != 0.0 {
        filledPrice := if side == Buy then filledStartAmount / filledDestAmount
                       else filledDestAmount / filledStartAmount;
      }
      filled := ledger.prevFilled + child.filled;
      assert View() == Accumulate(Settings(), old(View()), child);
      if child.status == Open {
        cmd := ReviewOpenOrder(child, quote);
      } else {
        cmd := ReviewClosedOrder(child, quote);
      }
    }

    /** The part of a tick for an open child: the threshold check against the
        best price while in BestAmount, then the cap of the current phase. */
    method ReviewOpenOrder(child: ChildOrder, quote: Quote) returns (cmd: Command)
      modifies this`orderCommand, this`prevPriceDiff, this`tags
      ensures View() == OnOpen(Settings(), old(View()), child, quote)
      ensures cmd == orderCommand
    {
      var currentStateMaxOrderUpdates := maxOrderUpdates;
      if state == BestAmount {
        currentStateMaxOrderUpdates := maxBestAmountOrdersUpdates;
        orderCommand := HoldTickers(symbol);
        if quote.Prices? {
          var currentTakerPrice := quote.taker;
          if currentTakerPrice > 0.0 {
            var priceDiff := RelativePriceDifference(side, bestPrice, currentTakerPrice);
            prevPriceDiff := priceDiff;
            if priceDiff.Some? && priceDiff.value <= takerPriceThreshold {
              orderCommand := CancelTickers(symbol);
              if BelowThresholdTag !in tags {
                tags := tags + [BelowThresholdTag];
              }
              return orderCommand;
            }
          }
        } else {
          // a missing ticker, or one that fails to translate, is caught: hold
          orderCommand := HoldTickers(symbol);
        }
      }
      if state == MarketPrice {
        currentStateMaxOrderUpdates := maxOrderUpdates;
        orderCommand := HoldTickers(symbol);
      }
      if child.updateRequestsCount >= currentStateMaxOrderUpdates && child.amount - child.filled > cancelThreshold {
        orderCommand := CancelTickers(symbol);
      }
      return orderCommand;
    }

    /** The part of a tick for a closed or cancelled child: complete, or move
        to MarketPrice and re-issue the remainder at the ticker price. */
    method ReviewClosedOrder(child: ChildOrder, quote: Quote) returns (cmd: Command)
      requires activeTradeOrder == Some(child)
      requires !Completes(filledStartAmount, startAmount) && !quote.NoTicker? ==>
        quote.Prices? && (side == Buy ==> quote.taker != 0.0)
      modifies this`orderCommand, this`ledger, this`activeTradeOrder, this`status, this`state
      ensures View() == OnClosed(Settings(), old(View()), child, quote)
      ensures cmd == orderCommand
    {
      if filledStartAmount >= startAmount * CompletionRatio {
        orderCommand := NoCommand;
        CloseActiveOrder();
        status := OrderClosed;
        return orderCommand;
      }
      state := MarketPrice;
      if !quote.NoTicker? {
        CloseActiveOrder();
        var newPrice := quote.taker;
        activeTradeOrder := Some(RecoveryChild(Settings(), filledStartAmount, newPrice));
        orderCommand := NewOrder;
      } else {
        // no ticker: keep the child and ask for one again
        orderCommand := HoldTickers(symbol);
      }
      return orderCommand;
    }
  }
}
