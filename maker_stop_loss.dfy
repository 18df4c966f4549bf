/** The maker stop-loss order: a trade of a fixed base amount that starts as
    passively priced (maker) child orders and degrades, for good, to
    aggressively priced (taker) child orders when the market moves past a
    threshold or too many maker updates have gone by. */
module MakerStopLoss {
  import opened Trading
  import opened Ledgers

  datatype Phase = Maker | Taker

  const ForceTakerTag: string := "#force_taker_max_maker_updates"
  /** The taker breach looks for this tag before adding TakerTag, which is a
      different string, so the look-up never finds what it adds. */
  const TakerTagChecked: string := "#below_threshold_taker"
  const TakerTag: string := "#below_threshold_taker_price"
  const MakerTag: string := "#below_threshold_maker"

  /** What is fixed when the order is created. */
  datatype Config = Config(
    symbol: Symbol,
    side: Side,
    amount: real,
    price: real,                       // the reference price of every threshold check
    startAmount: real,
    cancelThreshold: real,
    makerPriceThreshold: real,
    makerOrderMaxUpdates: int,
    forceTakerUpdates: int,
    takerPriceThreshold: real,
    takerOrderMaxUpdates: int,
    thresholdCheckAfterUpdates: int)   // stored, never read

  /** What a tick changes. */
  datatype Order = Order(
    status: OrderStatus,
    state: Phase,
    orderCommand: Command,
    totalMakerUpdates: nat,
    tags: seq<string>,
    ledger: Ledger,
    active: Option<ChildOrder>,
    filled: real,
    filledStartAmount: real,
    filledDestAmount: real)

  /** One tick's input: the exchange response for the active child and the
      market quote. */
  datatype Event = Event(resp: Response, quote: Quote)

  /** Amount of the start currency the trade spends. */
  function StartAmountFor(side: Side, amount: real, price: real): real
  {
    if side == Sell then amount else amount * price
  }

  /** Every order reachable from Init satisfies this: the totals are the
      ledger plus the active child, no tag is repeated, and the two tags that
      are appended without a membership check are absent while in Maker. */
  predicate Valid(o: Order)
  {
    Accounted(o.ledger, o.active, o.filled, o.filledStartAmount, o.filledDestAmount) &&
    NoDuplicates(o.tags) &&
    (o.state == Maker ==> ForceTakerTag !in o.tags && TakerTag !in o.tags)
  }

  /** The order right after creation: open, in Maker, one child placed at the
      reference price for the whole amount, command "new". */
  function Init(c: Config): (o: Order)
    ensures o.status == OrderOpen && o.state == Maker && o.orderCommand == NewOrder
    ensures o.active == Some(NewChild(c.amount, c.price))
    ensures o.ledger.history == [] && o.tags == [] && o.totalMakerUpdates == 0
    ensures Valid(o)
  {
    Order(OrderOpen, Maker, NewOrder, 0, [], EmptyLedger, Some(NewChild(c.amount, c.price)), 0.0, 0.0, 0.0)
  }

  /** The lifetime maker-update cap is reached by this tick (whose update is
      the counter's next value) while a worthwhile remainder is left. */
  predicate ForcesTaker(c: Config, o: Order)
  {
    o.totalMakerUpdates + 1 >= c.forceTakerUpdates && c.amount - o.filled > c.cancelThreshold
  }

  predicate TakerBreach(c: Config, takerPrice: real)
  {
    takerPrice > 0.0 &&
    var d := RelativePriceDifference(c.side, c.price, takerPrice);
    d.Some? && d.value <= c.takerPriceThreshold
  }

  predicate MakerBreach(c: Config, makerPrice: real)
  {
    makerPrice > 0.0 &&
    var d := RelativePriceDifference(c.side, c.price, makerPrice);
    d.Some? && d.value <= c.makerPriceThreshold
  }

  /** The threshold checks of a maker tick against the current execution
      prices (both zero when there is no market data). */
  function PriceChecks(c: Config, o: Order, takerPrice: real, makerPrice: real): Order
  {
    if TakerBreach(c, takerPrice) then
      o.(orderCommand := CancelTickers(c.symbol), state := Taker,
         tags := if TakerTagChecked in o.tags then o.tags else o.tags + [TakerTag])
    else if MakerBreach(c, makerPrice) then
      o.(orderCommand := CancelTickers(c.symbol), state := Maker, tags := AddTag(o.tags, MakerTag))
    else
      o.(orderCommand := HoldTickers(c.symbol))
  }

  /** A tick whose active child is still open. The command the hook returns
      is stored in orderCommand. */
  function OnOpen(c: Config, o: Order, child: ChildOrder, quote: Quote): (r: Order)
    // nothing but the phase, the counter, the tags and the command changes
    ensures r.status == o.status && r.ledger == o.ledger && r.active == o.active
    ensures r.filled == o.filled && r.filledStartAmount == o.filledStartAmount
    ensures r.filledDestAmount == o.filledDestAmount
    ensures r.orderCommand == HoldTickers(c.symbol) || r.orderCommand == CancelTickers(c.symbol)
    // the lifetime counter counts exactly the ticks spent in Maker
    ensures r.totalMakerUpdates == if o.state == Maker then o.totalMakerUpdates + 1 else o.totalMakerUpdates
    // Taker is final; there only the per-child cap cancels
    ensures o.state == Taker ==> r.state == Taker && r.tags == o.tags
    ensures o.state == Taker ==>
      (r.orderCommand == CancelTickers(c.symbol) <==> CapReached(child, c.takerOrderMaxUpdates, c.cancelThreshold))
    // Maker, in order of precedence
    ensures o.state == Maker && ForcesTaker(c, o) ==>
      r.state == Taker && r.tags == o.tags + [ForceTakerTag] && r.orderCommand == CancelTickers(c.symbol)
    ensures o.state == Maker && !ForcesTaker(c, o) && CapReached(child, c.makerOrderMaxUpdates, c.cancelThreshold) ==>
      r.state == Maker && r.tags == o.tags && r.orderCommand == CancelTickers(c.symbol)
    ensures o.state == Maker && !ForcesTaker(c, o) && !CapReached(child, c.makerOrderMaxUpdates, c.cancelThreshold) &&
            !quote.Prices? ==>
      r.state == Maker && r.tags == o.tags && r.orderCommand == HoldTickers(c.symbol)
    ensures o.state == Maker && !ForcesTaker(c, o) && !CapReached(child, c.makerOrderMaxUpdates, c.cancelThreshold) &&
            quote.Prices? && TakerBreach(c, quote.taker) ==>
      r.state == Taker && r.orderCommand == CancelTickers(c.symbol) &&
      r.tags == (if TakerTagChecked in o.tags then o.tags else o.tags + [TakerTag])
    ensures o.state == Maker && !ForcesTaker(c, o) && !CapReached(child, c.makerOrderMaxUpdates, c.cancelThreshold) &&
            quote.Prices? && !TakerBreach(c, quote.taker) && MakerBreach(c, quote.maker) ==>
      r.state == Maker && r.orderCommand == CancelTickers(c.symbol) && r.tags == AddTag(o.tags, MakerTag)
    ensures o.state == Maker && !ForcesTaker(c, o) && !CapReached(child, c.makerOrderMaxUpdates, c.cancelThreshold) &&
            quote.Prices? && !TakerBreach(c, quote.taker) && !MakerBreach(c, quote.maker) ==>
      r.state == Maker && r.orderCommand == HoldTickers(c.symbol) && r.tags == o.tags
    ensures Valid(o) ==> Valid(r)
  {
    match o.state
    case Maker =>
      var o1 := o.(totalMakerUpdates := o.totalMakerUpdates + 1);
      if ForcesTaker(c, o) then
        o1.(tags := o.tags + [ForceTakerTag], state := Taker, orderCommand := CancelTickers(c.symbol))
      else if CapReached(child, c.makerOrderMaxUpdates, c.cancelThreshold) then
        o1.(orderCommand := CancelTickers(c.symbol))
      else (
        match quote
        case NoTicker => PriceChecks(c, o1, 0.0, 0.0)
        case TickerError => o1.(orderCommand := HoldTickers(c.symbol))
        case Prices(taker, maker) => PriceChecks(c, o1, taker, maker))
    case Taker =>
      if CapReached(child, c.takerOrderMaxUpdates, c.cancelThreshold) then o.(orderCommand := CancelTickers(c.symbol))
      else o.(orderCommand := HoldTickers(c.symbol))
  }

  /** A tick whose active child has closed or been cancelled: the child is
      retired, then the order completes, waits for a price, or re-issues the
      remainder at the price of its phase. */
  function OnClosed(c: Config, o: Order, child: ChildOrder, quote: Quote): (r: Order)
    requires Completes(o.filledStartAmount, c.startAmount) || !quote.TickerError?
    ensures r.ledger == CloseActive(o.ledger, child)
    ensures r.state == o.state && r.tags == o.tags && r.totalMakerUpdates == o.totalMakerUpdates
    ensures r.filled == o.filled && r.filledStartAmount == o.filledStartAmount
    ensures r.filledDestAmount == o.filledDestAmount
    ensures Completes(o.filledStartAmount, c.startAmount) ==>
      r.status == OrderClosed && r.orderCommand == NoCommand && r.active == None
    ensures !Completes(o.filledStartAmount, c.startAmount) && quote.NoTicker? ==>
      r.status == o.status && r.orderCommand == HoldTickers(c.symbol) && r.active == None
    ensures !Completes(o.filledStartAmount, c.startAmount) && quote.Prices? ==>
      r.status == o.status && r.orderCommand == NewTickers(c.symbol) &&
      r.active == Some(NewChild(c.amount - o.filled, if o.state == Maker then quote.maker else quote.taker))
    ensures o.active == Some(child) && Valid(o) ==> Valid(r)
  {
    var o1 := o.(ledger := CloseActive(o.ledger, child), active := None);
    if Completes(o.filledStartAmount, c.startAmount) then
      o1.(orderCommand := NoCommand, status := OrderClosed)
    else if quote.NoTicker? then
      o1.(orderCommand := HoldTickers(c.symbol))
    else
      var price := if o.state == Maker then quote.maker else quote.taker;
      o1.(active := Some(NewChild(c.amount - o.filled, price)), orderCommand := NewTickers(c.symbol))
  }

  /** The active child replaced by its refreshed snapshot and every total
      recomputed as the previous fills plus the child's. */
  function Accumulate(o: Order, child: ChildOrder): Order
  {
    o.(active := Some(child),
       filled := o.ledger.prevFilled + child.filled,
       filledStartAmount := o.ledger.prevFilledStartAmount + child.filledStartAmount,
       filledDestAmount := o.ledger.prevFilledDestAmount + child.filledDestAmount)
  }

  /** The source cannot process a tick without an active child, nor
      translate a ticker that fails when the retired child leaves the order
      incomplete. */
  predicate CanTick(c: Config, o: Order, e: Event)
  {
    o.active.Some? &&
    (e.resp.status != Open &&
     !Completes(o.ledger.prevFilledStartAmount + e.resp.filledStartAmount, c.startAmount) ==>
       !e.quote.TickerError?)
  }

  /** One tick: refresh the active child from the response, recompute the
      totals as previous fills plus the child's, then dispatch on its status. */
  function Tick(c: Config, o: Order, e: Event): (r: Order)
    requires CanTick(c, o, e)
    ensures r.filled == o.ledger.prevFilled + e.resp.filled
    ensures r.filledStartAmount == o.ledger.prevFilledStartAmount + e.resp.filledStartAmount
    ensures r.filledDestAmount == o.ledger.prevFilledDestAmount + e.resp.filledDestAmount
    ensures o.state == Taker ==> r.state == Taker
    ensures e.resp.status == Open ==>
      r.ledger == o.ledger && r.status == o.status &&
      r.active == Some(Refresh(o.active.value, e.resp)) &&
      r.totalMakerUpdates == (if o.state == Maker then o.totalMakerUpdates + 1 else o.totalMakerUpdates)
    ensures e.resp.status != Open ==>
      r.ledger == CloseActive(o.ledger, Refresh(o.active.value, e.resp)) &&
      r.state == o.state && r.tags == o.tags && r.totalMakerUpdates == o.totalMakerUpdates
    // the order completes, and the command goes empty, only at the tolerance
    ensures r.orderCommand == NoCommand <==>
      e.resp.status != Open && Completes(r.filledStartAmount, c.startAmount)
    ensures r.status == OrderClosed <==>
      o.status == OrderClosed || (e.resp.status != Open && Completes(r.filledStartAmount, c.startAmount))
    ensures Valid(o) ==> Valid(r)
  {
    var child := Refresh(o.active.value, e.resp);
    var o1 := Accumulate(o, child);
    if child.status == Open then OnOpen(c, o1, child, e.quote) else OnClosed(c, o1, child, e.quote)
  }

  /** Ticks applied in order, up to the first one the source cannot process. */
  function Run(c: Config, o: Order, events: seq<Event>): Order
    decreases |events|
  {
    if events == [] || !CanTick(c, o, events[0]) then o
    else Run(c, Tick(c, o, events[0]), events[1..])
  }

  /** Once in Taker, no sequence of ticks brings the order back to Maker. */
  lemma {:induction false} RunKeepsTaker(c: Config, o: Order, events: seq<Event>)
    requires o.state == Taker
    ensures Run(c, o, events).state == Taker
    decreases |events|
  {
    if events != [] && CanTick(c, o, events[0]) {
      RunKeepsTaker(c, Tick(c, o, events[0]), events[1..]);
    }
  }

  /** Every tick sequence keeps the ledger accounting and the duplicate-free
      tag list. */
  lemma {:induction false} RunPreservesValid(c: Config, o: Order, events: seq<Event>)
    requires Valid(o)
    ensures Valid(Run(c, o, events))
    decreases |events|
  {
    if events != [] && CanTick(c, o, events[0]) {
      RunPreservesValid(c, Tick(c, o, events[0]), events[1..]);
    }
  }

  /** The history only grows: retired children are never removed or
      reordered. */
  lemma {:induction false} RunExtendsHistory(c: Config, o: Order, events: seq<Event>)
    ensures o.ledger.history <= Run(c, o, events).ledger.history
    decreases |events|
  {
    if events != [] && CanTick(c, o, events[0]) {
      var o1 := Tick(c, o, events[0]);
      RunExtendsHistory(c, o1, events[1..]);
    }
  }

  /** From creation on, whatever the ticks, the filled amount is the sum over
      the retired children plus the active child's fill, and the tag list
      never holds a marker twice. */
  lemma {:induction false} FromInitAccountedAndTagsUnique(c: Config, events: seq<Event>)
    ensures var o := Run(c, Init(c), events);
      o.filled == SumFilled(o.ledger.history) + ActiveFilled(o.active) &&
      o.filledStartAmount == SumFilledStart(o.ledger.history) + ActiveFilledStart(o.active) &&
      o.filledDestAmount == SumFilledDest(o.ledger.history) + ActiveFilledDest(o.active) &&
      NoDuplicates(o.tags)
  {
    RunPreservesValid(c, Init(c), events);
  }

  /** With force_taker_updates = 2, two open-child ticks in Maker force the
      order into Taker on the second, whatever its market data. */
  lemma ForceTakerOnSecondTick(c: Config, r1: Response, r2: Response, q2: Quote)
    requires c.forceTakerUpdates == 2 && c.makerOrderMaxUpdates > 1
    requires r1.status == Open && r2.status == Open
    requires c.amount - r2.filled > c.cancelThreshold
    ensures var o1 := Tick(c, Init(c), Event(r1, NoTicker));
      o1.state == Maker && o1.orderCommand == HoldTickers(c.symbol) &&
      var o2 := Tick(c, o1, Event(r2, q2));
      o2.state == Taker && o2.tags == [ForceTakerTag] && o2.orderCommand == CancelTickers(c.symbol)
  {
  }

  /** A closed child short of the target, with no market data, is retired
      and the order holds: it stays open with no active child, so the next
      refresh has no child to refresh and no later tick is processed. */
  lemma HoldWithoutTickerLeavesNoChild(c: Config, o: Order, r: Response, events: seq<Event>)
    requires o.active.Some? && o.status == OrderOpen
    requires r.status != Open
    requires !Completes(o.ledger.prevFilledStartAmount + r.filledStartAmount, c.startAmount)
    ensures CanTick(c, o, Event(r, NoTicker))
    ensures var o1 := Tick(c, o, Event(r, NoTicker));
      o1.status == OrderOpen && o1.orderCommand == HoldTickers(c.symbol) && o1.active.None? &&
      o1.ledger == CloseActive(o.ledger, Refresh(o.active.value, r)) &&
      Run(c, o1, events) == o1
  {
  }

  /** A closing fill of a tenth of the amount, with market data present. */
  predicate TenthFill(c: Config, e: Event)
  {
    e.resp.status == Closed && e.resp.filled == c.amount / 10.0 &&
    e.resp.filledStartAmount == c.amount / 10.0 && e.quote.Prices?
  }

  /** After k retired tenths, the remaining 10 - k closing tenths retire one
      child each and the last one completes the order. */
  lemma {:induction false} TenthFillsFrom(c: Config, o: Order, events: seq<Event>, k: nat)
    requires c.amount > 0.0 && c.startAmount == c.amount
    requires k < 10 && |events| == 10 - k
    requires forall i | 0 <= i < |events| :: TenthFill(c, events[i])
    requires o.status == OrderOpen && o.active.Some? && |o.ledger.history| == k
    requires o.ledger.prevFilled == k as real * c.amount / 10.0
    requires o.ledger.prevFilledStartAmount == k as real * c.amount / 10.0
    ensures var r := Run(c, o, events);
      r.status == OrderClosed && r.orderCommand == NoCommand && r.filled == c.amount &&
      |r.ledger.history| == 10 && r.active == None
    decreases |events|
  {
    var e := events[0];
    assert TenthFill(c, e);
    var fs := o.ledger.prevFilledStartAmount + e.resp.filledStartAmount;
    assert fs == (k + 1) as real * c.amount / 10.0;
    assert CanTick(c, o, e);
    var o1 := Tick(c, o, e);
    if k == 9 {
      assert Completes(fs, c.startAmount);
      assert events[1..] == [];
    } else {
      NineTenthsIncomplete((k + 1) as real, c.amount);
      assert !Completes(fs, c.startAmount);
      assert o1.active.Some?;
      assert forall i | 0 <= i < |events[1..]| :: TenthFill(c, events[1..][i]) by {
        forall i | 0 <= i < |events[1..]| ensures TenthFill(c, events[1..][i]) {
          assert events[1..][i] == events[i + 1];
        }
      }
      TenthFillsFrom(c, o1, events[1..], k + 1);
    }
  }

  /** At most nine tenths of a positive amount is short of the tolerance. */
  lemma NineTenthsIncomplete(m: real, a: real)
    requires 0.0 <= m <= 9.0 && a > 0.0
    ensures !Completes(m * a / 10.0, a)
  {
    assert m * a <= 9.0 * a;
  }

  /** A sell filled by ten closing children of a tenth of the amount each,
      with market data on every tick, retires exactly ten children, fills the
      whole amount and closes with nothing left to do. */
  lemma TenClosingFills(c: Config, events: seq<Event>)
    requires c.amount > 0.0 && c.side == Sell && c.startAmount == StartAmountFor(c.side, c.amount, c.price)
    requires |events| == 10 && forall i | 0 <= i < 10 :: TenthFill(c, events[i])
    ensures var r := Run(c, Init(c), events);
      r.status == OrderClosed && r.orderCommand == NoCommand && r.filled == c.amount &&
      |r.ledger.history| == 10
  {
    TenthFillsFrom(c, Init(c), events, 0);
  }

  /** Creation from 1 ETH to 0.01 BTC on ETH/BTC, with the side, price and
      amount as creation from a start amount sets them: BTC is the quote, so
      the order sells 1 ETH at reference price 0.01, and the first child
      carries that amount and price. */
  lemma EthBtcFromStartAmount(c: Config)
    requires c.side == TradeDirection(Symbol("ETH", "BTC"), "BTC")
    requires c.price == PriceForDestAmount(c.side, 1.0, 0.01)
    requires c.amount == if c.side == Sell then 1.0 else 0.01
    ensures c.side == Sell && c.price == 0.01 && c.amount == 1.0
    ensures Init(c).active == Some(NewChild(1.0, 0.01)) && Init(c).orderCommand == NewOrder
  {
  }

  /** The order object: configuration fixed at creation, phase, counters,
      tags and fill ledger updated in place tick by tick. */
  class MakerStopLossOrder {
    const symbol: Symbol
    const side: Side
    const amount: real
    const price: real
    const startAmount: real
    const cancelThreshold: real
    const makerPriceThreshold: real
    const makerOrderMaxUpdates: int
    const forceTakerUpdates: int
    const takerPriceThreshold: real
    const takerOrderMaxUpdates: int
    const thresholdCheckAfterUpdates: int

    var status: OrderStatus
    var state: Phase
    var orderCommand: Command
    var totalMakerUpdates: nat
    var tags: seq<string>
    var ledger: Ledger
    var activeTradeOrder: Option<ChildOrder>
    var filled: real
    var filledStartAmount: real
    var filledDestAmount: real

    function Settings(): Config
    {
      Config(symbol, side, amount, price, startAmount, cancelThreshold, makerPriceThreshold,
             makerOrderMaxUpdates, forceTakerUpdates, takerPriceThreshold, takerOrderMaxUpdates,
             thresholdCheckAfterUpdates)
    }

    function View(): Order
      reads this
    {
      Order(status, state, orderCommand, totalMakerUpdates, tags, ledger, activeTradeOrder,
            filled, filledStartAmount, filledDestAmount)
    }

    /** An order for `amount` base units at reference `price`. */
    constructor (symbol: Symbol, amount: real, price: real, side: Side,
                 cancelThreshold: real := 0.000001, makerPriceThreshold: real := -0.005,
                 makerOrderMaxUpdates: int := 50, forceTakerUpdates: int := 500,
                 takerPriceThreshold: real := -0.01, takerOrderMaxUpdates: int := 10,
                 thresholdCheckAfterUpdates: int := 5)
      ensures Settings() == Config(symbol, side, amount, price, StartAmountFor(side, amount, price),
                                   cancelThreshold, makerPriceThreshold, makerOrderMaxUpdates,
                                   forceTakerUpdates, takerPriceThreshold, takerOrderMaxUpdates,
                                   thresholdCheckAfterUpdates)
      ensures View() == Init(Settings())
      ensures Valid(View())
    {
      this.symbol := symbol;
      this.side := side;
      this.amount := amount;
      this.price := price;
      this.startAmount := StartAmountFor(side, amount, price);
      this.cancelThreshold := cancelThreshold;
      this.makerPriceThreshold := makerPriceThreshold;
      this.makerOrderMaxUpdates := makerOrderMaxUpdates;
      this.forceTakerUpdates := forceTakerUpdates;
      this.takerPriceThreshold := takerPriceThreshold;
      this.takerOrderMaxUpdates := takerOrderMaxUpdates;
      this.thresholdCheckAfterUpdates := thresholdCheckAfterUpdates;
      new;
      InitOrder();
    }

    /** An order that converts `startAmount` of `startCurrency` into
        `targetAmount` of `destCurrency`: the side follows from which currency
        of the pair is the destination and the reference price is the one at
        which the two amounts correspond. */
    constructor FromStartAmount(symbol: Symbol, startCurrency: string, startAmount: real,
                                destCurrency: string, targetAmount: real,
                                cancelThreshold: real := 0.000001, makerPriceThreshold: real := -0.005,
                                makerOrderMaxUpdates: int := 50, forceTakerUpdates: int := 500,
                                takerPriceThreshold: real := -0.01, takerOrderMaxUpdates: int := 10,
                                thresholdCheckAfterUpdates: int := 5)
      requires TradeDirection(symbol, destCurrency) == Sell ==> startAmount != 0.0
      requires TradeDirection(symbol, destCurrency) == Buy ==> targetAmount != 0.0 && startAmount != 0.0
      ensures side == TradeDirection(symbol, destCurrency)
      ensures price == PriceForDestAmount(side, startAmount, targetAmount)
      ensures this.startAmount == startAmount
      ensures amount == if side == Sell then startAmount else targetAmount
      ensures Settings() == Config(symbol, side, amount, price, startAmount, cancelThreshold,
                                   makerPriceThreshold, makerOrderMaxUpdates, forceTakerUpdates,
                                   takerPriceThreshold, takerOrderMaxUpdates, thresholdCheckAfterUpdates)
      ensures View() == Init(Settings())
    {
      var side := TradeDirection(symbol, destCurrency);
      var price := PriceForDestAmount(side, startAmount, targetAmount);
      this.symbol := symbol;
      this.side := side;
      this.price := price;
      this.startAmount := startAmount;
      this.amount := if side == Sell then startAmount else startAmount / price;
      this.cancelThreshold := cancelThreshold;
      this.makerPriceThreshold := makerPriceThreshold;
      this.makerOrderMaxUpdates := makerOrderMaxUpdates;
      this.forceTakerUpdates := forceTakerUpdates;
      this.takerPriceThreshold := takerPriceThreshold;
      this.takerOrderMaxUpdates := takerOrderMaxUpdates;
      this.thresholdCheckAfterUpdates := thresholdCheckAfterUpdates;
      new;
      InitOrder();
    }

    /** Opens the first child at the reference price and enters Maker. */
    method InitOrder()
      modifies this
      ensures View() == Init(Settings())
    {
      ledger := EmptyLedger;
      tags := [];
      totalMakerUpdates := 0;
      filled, filledStartAmount, filledDestAmount := 0.0, 0.0, 0.0;
      activeTradeOrder := Some(NewChild(amount, price));
      status := OrderOpen;
      state := Maker;
      orderCommand := NewOrder;
    }

    /** Retires the active child into the ledger. */
    method CloseActiveOrder()
      requires activeTradeOrder.Some?
      modifies this`ledger, this`activeTradeOrder
      ensures ledger == CloseActive(old(ledger), old(activeTradeOrder.value))
      ensures activeTradeOrder == None
    {
      ledger := CloseActive(ledger, activeTradeOrder.value);
      activeTradeOrder := None;
    }

    /** The open-child hook; returns the command for the dispatcher to store. */
    method OnOpenOrder(child: ChildOrder, quote: Quote) returns (cmd: Command)
      modifies this`totalMakerUpdates, this`state, this`tags
      ensures View() == OnOpen(Settings(), old(View()), child, quote).(orderCommand := orderCommand)
      ensures cmd == OnOpen(Settings(), old(View()), child, quote).orderCommand
    {
      cmd := HoldTickers(symbol);
      if state == Maker {
        totalMakerUpdates := totalMakerUpdates + 1;
        if totalMakerUpdates >= forceTakerUpdates && amount - filled > cancelThreshold {
          tags := tags + [ForceTakerTag];
          state := Taker;
          return CancelTickers(symbol);
        }
        if child.updateRequestsCount >= makerOrderMaxUpdates && child.amount - child.filled > cancelThreshold {
          return CancelTickers(symbol);
        }
        var takerPrice, makerPrice := 0.0, 0.0;
        if quote.TickerError? {
          return HoldTickers(symbol);
        } else if quote.Prices? {
          takerPrice, makerPrice := quote.taker, quote.maker;
        }
        ghost var counted := old(View()).(totalMakerUpdates := totalMakerUpdates);
        assert OnOpen(Settings(), old(View()), child, quote) == PriceChecks(Settings(), counted, takerPrice, makerPrice);
        if takerPrice > 0.0 {
          var diff := RelativePriceDifference(side, price, takerPrice);
          if diff.Some? && diff.value <= takerPriceThreshold {
            cmd := CancelTickers(symbol);
            state := Taker;
            if TakerTagChecked !in tags {
              tags := tags + [TakerTag];
            }
            return;
          }
        }
        if makerPrice > 0.0 {
          var diff := RelativePriceDifference(side, price, makerPrice);
          if diff.Some? && diff.value <= makerPriceThreshold {
            cmd := CancelTickers(symbol);
            state := Maker;
            if MakerTag !in tags {
              tags := tags + [MakerTag];
            }
            return;
          }
        }
      }
      if state == Taker {
        if child.updateRequestsCount >= takerOrderMaxUpdates && child.amount - child.filled > cancelThreshold {
          // the phase is already Taker and stays so
          return CancelTickers(symbol);
        }
      }
    }

    /** The closed-or-cancelled-child hook. */
    method OnClosedOrder(child: ChildOrder, quote: Quote) returns (cmd: Command)
      requires activeTradeOrder == Some(child)
      requires Completes(filledStartAmount, startAmount) || !quote.TickerError?
      modifies this
      ensures View() == OnClosed(Settings(), old(View()), child, quote)
      ensures cmd == orderCommand
    {
      CloseActiveOrder();
      orderCommand := HoldTickers(symbol);
      if filledStartAmount >= startAmount * CompletionRatio {
        orderCommand := NoCommand;
        status := OrderClosed;
        return orderCommand;
      }
      if quote.NoTicker? {
        return orderCommand;
      }
      var takerPrice, makerPrice := quote.taker, quote.maker;
      if state == Maker {
        activeTradeOrder := Some(NewChild(amount - filled, makerPrice));
        orderCommand := NewTickers(symbol);
        return orderCommand;
      }
      activeTradeOrder := Some(NewChild(amount - filled, takerPrice));
      orderCommand := NewTickers(symbol);
      return orderCommand;
    }

    /** One tick: the response refreshes the active child, the totals are
        recomputed from the ledger, and the hook for the child's status
        decides the command. */
    method UpdateFromExchange(resp: Response, quote: Quote) returns (cmd: Command)
      requires CanTick(Settings(), View(), Event(resp, quote))
      modifies this
      ensures View() == Tick(Settings(), old(View()), Event(resp, quote))
      ensures cmd == orderCommand
    {
      var child := Refresh(activeTradeOrder.value, resp);
      activeTradeOrder := Some(child);
      filled := ledger.prevFilled + child.filled;
      filledStartAmount := ledger.prevFilledStartAmount + child.filledStartAmount;
      filledDestAmount := ledger.prevFilledDestAmount + child.filledDestAmount;
      assert View() == Accumulate(old(View()), child);
      if child.status == Open {
        cmd := OnOpenOrder(child, quote);
        orderCommand := cmd;
      } else {
        cmd := OnClosedOrder(child, quote);
      }
    }
  }
}
