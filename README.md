# Threshold orders of tkg-pro, modelled in Dafny

tkg-pro provides two "action orders". Each is a governing order that reaches a trading goal by placing one exchange (child) order after another. After each exchange update, the order decides what the order manager does next:

- `"new"` / `"new tickers <symbol>"`: place the next child.
- `"hold tickers <symbol>"`: wait.
- `"cancel tickers <symbol>"`: cancel the child.
- `""`: the order is done.

The two orders are:

- **MakerStopLossOrder** (`maker_stop_loss.py`) trades a fixed base amount.
  - It starts in the `maker` phase. Its first child is placed at the order's reference price; each later maker child is placed at the current maker price.
  - It switches to the `taker` phase for good when either of these happens:
    - the taker price moves past `taker_price_threshold` relative to the reference price;
    - `force_taker_updates` maker ticks have gone by.
  - A child is re-priced once it reaches its per-phase update cap. In maker it is also re-priced when the maker price moves past `maker_price_threshold`.
- **ThresholdRecoveryOrder** (`threshold_order.py`) converts a start amount into a target destination amount.
  - It places one limit order at the "best" price, in the `best_amount` phase.
  - It enters the `market_price` phase for good when the child closes short of the target. While still in `best_amount`, it cancels the child when the taker price crosses the threshold relative to the best price, or when the child goes stale.
  - In `market_price`, it re-issues the remainder at the current taker price.

The project has four files:

- `trading.dfy` (module `Trading`) holds the shared vocabulary:
  - sides, symbols and commands;
  - child orders and exchange responses;
  - market quotes;
  - the 0.99999 completion tolerance;
  - the signed relative price difference both orders compare against their thresholds.
- `ledger.dfy` (module `Ledgers`) holds the fill ledger:
  - the "previous" accumulators of retired children;
  - the children's history;
  - the idempotent tag list.
- `maker_stop_loss.dfy` (module `MakerStopLoss`) and `threshold_order.dfy` (module `ThresholdRecovery`) hold one order each, in two layers:
  - a pure specification over an `Order` value. It has `Init`, the two hooks `OnOpen`/`OnClosed`, the tick `Tick`, and `Run` over a sequence of ticks. The properties are proved about these.
  - a class with the source's fields, updated in place. Each method is proved to leave the object's `View()` equal to the specification applied to its `old(View())`.

Market data reaches a tick as a `Quote`, already translated into a taker and a maker execution price. The quote can also be absent (`NoTicker`), or it can be a ticker that failed to translate (`TickerError`).

## Model

| member | source | states |
|---|---|---|
| Trading.RelativePriceDifference | tkgpro/threshold_order/maker_stop_loss.py:154-159 | defined exactly when both prices are positive. For a buy, difference × reference = reference − current; for a sell, current − reference |
| Trading.PriceDifferenceSign | tkgpro/threshold_order/maker_stop_loss.py:34-35 | a negative difference means the price moved the "bad" way: up for a buy, down for a sell |
| Trading.PriceDifferenceZeroAndSymmetry | tests/test_maker_stop_loss.py:74-122 | zero exactly when the price is unchanged; buy and sell see the same move with opposite signs |
| Trading.PriceDifferenceThreshold | tkgpro/threshold_order/threshold_order.py:135-139 | "difference ≤ t" is a price level. A buy breaches at or above reference·(1−t), a sell at or below reference·(1+t) |
| Trading.PriceDifferenceExamples | tests/test_maker_stop_loss.py:74-122 | the seven buy/sell values the unit test checks |
| Trading.PriceForDestAmount | tkgpro/threshold_order/maker_stop_loss.py:83-85 | the price converts the start amount into exactly the destination amount, on either side |
| Ledgers.SumsAppend | tkgpro/threshold_order/threshold_order.py:88-90 | retiring a child adds exactly its fills to the sums over the history |
| Ledgers.CloseActive | tkgpro/threshold_order/threshold_order.py:173 | the child joins the end of the history. Each accumulator grows by the child's fill, and accumulators equal to the history sums stay so |
| Ledgers.AddTag | tkgpro/threshold_order/threshold_order.py:141-142 | the tag is present afterwards and nothing else is added. The list is unchanged if the tag was already there, and duplicate-freedom is kept |
| MakerStopLoss.Init | tkgpro/threshold_order/maker_stop_loss.py:101-107 | open, maker phase, command "new", one child for the whole amount at the reference price, counters and tags empty, invariant holds |
| MakerStopLoss.OnOpen | tkgpro/threshold_order/maker_stop_loss.py:109-189 | each branch of the open-child hook, by precedence: forced taker (tag, Taker, cancel), then the maker cap, then the taker breach, then the maker breach, then hold. The lifetime counter grows only in maker; in taker only the per-child cap cancels; fills and ledger are untouched; the invariant is kept |
| MakerStopLoss.OnClosed | tkgpro/threshold_order/maker_stop_loss.py:191-222 | the child is always retired. At the 0.99999 tolerance the order closes with ""; without market data it holds; otherwise a child for `amount − filled` at the maker or taker price of the phase, with "new tickers". The invariant is kept |
| MakerStopLoss.Tick | tkgpro/threshold_order/maker_stop_loss.py:109-222 | totals = previous fills + the refreshed child. An open child leaves the ledger alone, a closed one is retired. "" and closing happen exactly at the tolerance; Taker is never left; the invariant is kept |
| MakerStopLoss.RunKeepsTaker | tkgpro/threshold_order/maker_stop_loss.py:180-189 | from taker, no sequence of ticks returns to maker |
| MakerStopLoss.RunPreservesValid | tkgpro/threshold_order/maker_stop_loss.py:109-222 | any tick sequence keeps: totals = history sums + active child, no repeated tag, and the force/taker tags absent while in maker |
| MakerStopLoss.RunExtendsHistory | tkgpro/threshold_order/maker_stop_loss.py:191-193 | the history of retired children only grows at its end |
| MakerStopLoss.FromInitAccountedAndTagsUnique | tkgpro/threshold_order/maker_stop_loss.py:101-107 | from creation on, whatever the ticks, all three filled totals (base, start, destination) are the ledger sums plus the active child, and the tags are duplicate-free |
| MakerStopLoss.ForceTakerOnSecondTick | tkgpro/threshold_order/maker_stop_loss.py:121-127 | with force_taker_updates = 2, the first open tick holds and the second cancels into taker, tagged once |
| MakerStopLoss.EthBtcFromStartAmount | tests/test_maker_stop_loss.py:42-72 | with side, price and amount set by the creation rule, 1 ETH → 0.01 BTC on ETH/BTC is a sell of amount 1 at price 0.01, whose first child is that amount at that price with command "new" |
| MakerStopLoss.HoldWithoutTickerLeavesNoChild | tkgpro/threshold_order/maker_stop_loss.py:191-204 | a child that closes short of the target with no market data is retired and the order holds, open with no active child, after which no tick sequence changes it |
| MakerStopLoss.TenthFillsFrom | tkgpro/threshold_order/maker_stop_loss.py:191-220 | after k retired tenths of the amount, the remaining closing tenths with market data each retire one child, and the last completes the order |
| MakerStopLoss.TenClosingFills | tkgpro/threshold_order/maker_stop_loss.py:191-220 | a sell filled by ten closing children of a tenth each, with market data, retires exactly ten children, fills the whole amount and closes with "" |
| MakerStopLoss.MakerStopLossOrder.constructor | tkgpro/threshold_order/maker_stop_loss.py:14-53 | the settings are the arguments, with the thresholds and caps defaulting to the source's values (0.000001, −0.005, 50, 500, −0.01, 10, 5); the state is `Init` of them; the invariant holds |
| MakerStopLoss.MakerStopLossOrder.FromStartAmount | tkgpro/threshold_order/maker_stop_loss.py:55-99 | the side follows from the destination currency; the price converts start into target amount; the amount is the base side of the trade; the symbol and every threshold and cap are the arguments, with the same defaults as the constructor; the state is `Init` |
| MakerStopLoss.MakerStopLossOrder.InitOrder | tkgpro/threshold_order/maker_stop_loss.py:101-107 | the object's state becomes `Init` of its settings |
| MakerStopLoss.MakerStopLossOrder.CloseActiveOrder | tkgpro/threshold_order/maker_stop_loss.py:193 | the active child is folded into the ledger and no child is active |
| MakerStopLoss.MakerStopLossOrder.OnOpenOrder | tkgpro/threshold_order/maker_stop_loss.py:109-189 | the in-place hook leaves the phase, counter and tags that `OnOpen` gives and returns its command |
| MakerStopLoss.MakerStopLossOrder.OnClosedOrder | tkgpro/threshold_order/maker_stop_loss.py:191-222 | the in-place hook leaves exactly the state `OnClosed` gives and returns the stored command |
| MakerStopLoss.MakerStopLossOrder.UpdateFromExchange | tkgpro/threshold_order/maker_stop_loss.py:109-222 | one in-place tick leaves exactly the state `Tick` gives and returns the stored command |
| ThresholdRecovery.Init | tkgpro/threshold_order/threshold_order.py:96-104 | open, best_amount, "new tickers", one child at the best price, empty history and tags, invariant holds |
| ThresholdRecovery.InitialChildMeetsTarget | tkgpro/threshold_order/threshold_order.py:75-104 | the first child is for the target amount and delivers exactly the destination amount (sell) or spends exactly the start amount (buy) |
| ThresholdRecovery.OnOpen | tkgpro/threshold_order/threshold_order.py:124-161 | the difference to the best price is cached on every priced best_amount tick. A breach cancels and adds "#below_threshold" once; otherwise the tags stay and the command is cancel exactly when the phase's cap is reached; nothing else changes |
| ThresholdRecovery.OnClosed | tkgpro/threshold_order/threshold_order.py:163-189 | at the tolerance: retire the child, close, "". Otherwise market_price. With prices: retire, then a child for the remaining start amount at the taker price, "new". Without: hold, keeping the child. The invariant is kept |
| ThresholdRecovery.FilledPrice | tkgpro/threshold_order/threshold_order.py:118-120 | once both filled amounts are non-zero, the price converts them into each other for the side; until then the previous value stays |
| ThresholdRecovery.Tick | tkgpro/threshold_order/threshold_order.py:106-189 | totals = previous + refreshed child. Average price as `FilledPrice`. market_price is final; an open child leaves the ledger alone; at most one child is retired per tick; "" and closing happen exactly at the tolerance; the invariant is kept |
| ThresholdRecovery.RunKeepsMarketPrice | tkgpro/threshold_order/threshold_order.py:149-171 | from market_price, no sequence of ticks returns to best_amount |
| ThresholdRecovery.RunPreservesValid | tkgpro/threshold_order/threshold_order.py:106-189 | any tick sequence keeps the ledger accounting, duplicate-free tags, and "closed exactly when no child is active" |
| ThresholdRecovery.RunExtendsHistory | tkgpro/threshold_order/threshold_order.py:163-180 | the history only grows at its end, by at most one child per tick |
| ThresholdRecovery.FromInitAccountedAndTagsUnique | tkgpro/threshold_order/threshold_order.py:88-104 | from creation on, all three filled totals are the ledger sums plus the active child, and the tags are duplicate-free |
| ThresholdRecovery.AdaEthSellIsCreated | tests/test_threshold_recovery_order.py:34-52 | 1000 ADA → 0.32485131 ETH on ADA/ETH, with the default fee, cancel threshold and caps, is a sell of 1000 at best price 0.00032485131 |
| ThresholdRecovery.FillAtBestAmount | tests/test_threshold_recovery_order.py:83-106 | a half fill holds in best_amount with the average price equal to the child's price; the full fill closes with "" and one child in the history |
| ThresholdRecovery.CancelBelowThreshold | tests/test_threshold_recovery_order.py:108-126 | a taker price 2.1% under the best price breaches −2%: cancel, tag "#below_threshold", still best_amount |
| ThresholdRecovery.AdaEthBuyIsCreated | tests/test_threshold_recovery_order.py:128-129 | 0.32485131 ETH → 1000 ADA on ADA/ETH, with the default fee, cancel threshold and caps, is a buy of 1000 at best price 0.00032485131 |
| ThresholdRecovery.CancelAboveThresholdBuy | tests/test_threshold_recovery_order.py:128-144 | for the buy, a half fill holds in best_amount with start-currency fill 0.32485131 / 2; then an ask 2.1% over the best price breaches −2%: cancel, tag "#below_threshold", still best_amount |
| ThresholdRecovery.ThresholdRecoveryOrder.constructor | tkgpro/threshold_order/threshold_order.py:14-94 | the side, amount and best price follow from the currencies and amounts. The settings are those of creation, with the source's defaults (destination amount 0, taker threshold −0.01, fee 0, cancel threshold 0.000001, caps 50 and 10); the state is `Init` of them; the invariant holds |
| ThresholdRecovery.ThresholdRecoveryOrder.InitBestAmount | tkgpro/threshold_order/threshold_order.py:96-104 | the best price converts start into destination amount; open, best_amount, "new tickers", a child for the start amount at that price |
| ThresholdRecovery.ThresholdRecoveryOrder.CloseActiveOrder | tkgpro/threshold_order/threshold_order.py:173 | the active child is folded into the ledger and no child is active |
| ThresholdRecovery.ThresholdRecoveryOrder.UpdateFromExchange | tkgpro/threshold_order/threshold_order.py:106-189 | the settings, best price included, stay as they were; one in-place tick leaves exactly the state `Tick` gives under them and returns the stored command |
| ThresholdRecovery.ThresholdRecoveryOrder.ReviewOpenOrder | tkgpro/threshold_order/threshold_order.py:124-161 | the in-place open-child part leaves exactly the state `OnOpen` gives |
| ThresholdRecovery.ThresholdRecoveryOrder.ReviewClosedOrder | tkgpro/threshold_order/threshold_order.py:163-189 | the in-place closed-child part leaves exactly the state `OnClosed` gives |

## Left out

- The base-class helpers are stand-ins here. `ActionOrder`, `RecoveryOrder`, `TradeOrder` and `tkgcore.core` are not part of this model:
  - refreshing a child from a response (`Refresh`: new status and cumulative fills, one more update request);
  - the trade direction (`TradeDirection`: buy when the destination is the base currency);
  - the price for a destination amount (`PriceForDestAmount`);
  - the amount of a recovery child (`ChildAmountFor`) and of a maker re-issue (`amount − filled`);
  - the start amount of a maker order (`StartAmountFor`);
  - retiring the active child (`CloseActive`).
- The dispatch from a maker tick to its two hooks lives in the base class. `MakerStopLoss.Tick` assumes it works the way the recovery order's own `update_from_exchange` does: accumulate previous fills plus the child's, call the hook for the child's status, store the returned command.
- Translating a ticker into execution prices (`get_symbol_order_price_from_tickers`) is an input. The quote arrives already translated, or as absent or failed.
- Trading.RelativePriceDifference: `relative_target_price_difference` is not part of this model. Its definition follows the documented semantics and the unit-test values, with no value when either price is not positive.
- Exceptions the source does not catch are excluded by `CanTick`, which `Run` stops at. They are:
  - a failed ticker when a closed child leaves the order incomplete (both orders);
  - a zero taker price for a recovery buy.
- `ThresholdRecovery.Run` and `MakerStopLoss.Run` stop at the first tick the source cannot process; the model does not say what follows an exception.
- MakerStopLoss.Run: a maker tick whose child closes short of the target without market data retires the child before it holds (maker_stop_loss.py:193, 203-204). The order is then open with no active child. The base class would refresh that missing child on the next tick, and that code is not part of this model. So `CanTick` rejects every later tick, and the `Run` lemmas say nothing past that point (`MakerStopLoss.HoldWithoutTickerLeavesNoChild` states the stall). The recovery order keeps its child in the same situation (threshold_order.py:182-184).
- IEEE floating point is modelled as exact reals, including the division results the tests compare.
- Command strings are a datatype. Both orders format some commands from `active_trade_order.symbol` and others from `self.symbol` (maker_stop_loss.py:173; threshold_order.py:140, 151, 159, 184). Every child carries the order's own symbol, so the model uses the order's symbol throughout.
- Constants only:
  - `fee` and `threshold_check_after_updates` are stored but never read;
  - the `self.stare = "taker"` assignment sets an unused attribute. The phase is already taker at that point.
- The maker child's `supplementary` annotation (`parent_action_order`) and the id, timestamps and `market_data` fields are not modelled: no decision reads them.
- Object equality and the copy behaviour of the base classes are not modelled.
- The maker order's tag list is assumed to start empty.
- The maker taker-breach check looks for `"#below_threshold_taker"` but appends `"#below_threshold_taker_price"`. The model keeps the two strings apart, as written. Because the breach also moves the order into taker, where no price check runs, the appended tag still occurs at most once. `MakerStopLoss.RunPreservesValid` proves this.
