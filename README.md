# Trading-simulation engine of a crypto strategy backtester

This project models the core of a backtester that replays historical
Binance klines (OHLCV candles) through a trading strategy. The model covers:

- how an indicator's signal vector becomes one trade action;
- how that action is sized into a stake, charged a fee and turned into an order quantity;
- how the order changes an account;
- how the driver loop runs trading sessions until the feed is exhausted, marking the account to market after each kline;
- the calendar-driven DCA indicator.

Money, prices and quantities are exact `real`s.

Modules, one per part of the source:

- `Market` (market.dfy): timestamps, klines, the `Action` signal (`Buy(n)`, `Sell(n)`, `NoAction`, the last standing for the indicator library's `Action::None`), and `Option`.
- `Accounts` (accounts.dfy): the `Account` class the engine mutates, with a pure `AccountState` view and one effect function per account operation.
- `TradingRules` (trading_rules.dfy): `TradingFee`, `StakeSize`, the stake, the buy and sell fees, the buy quantity, and the buy and sell orders. These are pure functions. `Protocol` selects the current fixed-amount rule (src/traders/generic_trader.rs) or the older one (src/traders.rs).
- `Traders` (traders.dfy): the decision rules of the MACD and HODL traders, the `KlineFeed` iterator and the `Trader` class with `ExecuteBuy`, `ExecuteSell` and `NextTradeSession`. Each method is proved against a pure specification (`BuyEffect`, `SellEffect`, `SessionStep`). The module also holds the trader constructors, which take the first kline.
- `Backtest` (backtest.dfy): the driver from src/main.rs. `RunBacktest` is its loop, proved against the recursive specification `Run`. The module also holds account initialisation, the MACD wiring and the whole download-to-report run. Lemmas state what a run does to the history, the trades, the fund and the position.
- `Dca` (dca.dfy): the DCA indicator as a class with its one field, plus a pure account of feeding it a sequence of candles.
- `DcaTrading` (dca_trading.dfy): the DCA indicator seen through the trader interface, once for each of its two entry points, and what the MACD and HODL decision rules do with its signals.

A panic in the source becomes an explicit outcome in the model:

- an `unwrap` on a missing signal becomes `Session.Panicked`, and the run reports `completed == false`;
- an empty feed or a failed indicator seed in a constructor makes it return `null`;
- no klines in `initialise_acount` makes it return `null`.

The model follows the code in three places where the code may not do what its authors meant:

- The DCA sentinel date 2000-01-01 is a January, and only months are compared. So a first candle dated in January emits no buy (`Dca.FirstCandleBuysUnlessJanuary`), although the sentinel is meant to make the first candle buy. Two candles in the same month of different years also do not buy (`Dca.YearIsIgnored`).
- Nothing bounds a buy's outlay by the available fund. With a positive fund and price, staking the whole fund at a percentage fee rate strictly between 0 and 1 always overspends (`TradingRules.FullStakeOverspends`). At a 0% rate it spends the fund exactly (`Backtest.WholeFundBuyWithoutFee`). The MACD wiring of src/main.rs stakes the whole fund at a 0.5% rate, so under the assumed `open` contract its first buy drives the fund negative (`Backtest.WiredMacdFirstBuyOverdraws`).
- The older `FixAmount` rule takes the amount even above the fund (`TradingRules.LegacyStakeExceedsFund`).

## Model

| member | source | states |
|---|---|---|
| `TradingRules.Stake` | src/traders/generic_trader.rs:30-34 | `FixPercentage(p)` stakes `fund * p`. `FixAmount(a)` stakes `a` when `a <= fund` and 0 otherwise. Under `Legacy` it stakes `a` unconditionally (src/traders.rs:40-43). |
| `TradingRules.BuyFee` | src/traders/generic_trader.rs:35-38 | A fixed fee is the fixed amount. A percentage fee `r` satisfies `r == (stake + r) * rate`: it is exactly the fraction `rate` of the outlay. |
| `TradingRules.BuyFeeUnique` | src/traders/generic_trader.rs:37 | The grossed-up formula is the only fee that is the fraction `rate` of the outlay, for `rate != 1`. |
| `TradingRules.SellFee` | src/traders/generic_trader.rs:49-52 | The fixed fee, or `price * quantity * rate` on the whole current position. |
| `TradingRules.BuyQuantity` | src/traders/generic_trader.rs:39 | The quantity `q` satisfies `q * price == stake + fee`: its value at the price is the whole outlay. |
| `TradingRules.BuyOrder` | src/traders/generic_trader.rs:29-45 | An order is placed iff `(stake + fee) / price > 0`. It then carries exactly that quantity, the given price and the computed fee. |
| `TradingRules.SellOrder` | src/traders/generic_trader.rs:47-57 | An order is placed iff the position is positive. It then sells the entire position at the price, with the sell fee. |
| `TradingRules.StakeWithinFund` | src/traders/generic_trader.rs:31-34 | Under the current rule the stake never exceeds a non-negative fund when the percentage is at most 1. |
| `TradingRules.LegacyStakeExceedsFund` | src/traders.rs:40-43 | The older rule stakes a fixed amount above the fund. The current rule stakes 0 for it. |
| `TradingRules.ProtocolsAgreeWithinFund` | src/traders.rs:40-42 | The two rules differ only for a fixed amount above the fund. |
| `TradingRules.FullStakeOverspends` | src/traders/generic_trader.rs:31-43 | With `FixPercentage(1)` and a fee rate in (0,1), an order is placed whose outlay exceeds the fund. |
| `Accounts.OpenEffect` | src/traders/generic_trader.rs:43 | Assumed `open`: records `Opened(t, q, price, fee)`, adds `q` to the position and takes `q * price` from the fund. |
| `Accounts.CloseEffect` | src/traders/generic_trader.rs:55 | Assumed `close`: records `Closed(t, q, price, fee)`, removes `q` from the position and credits `q * price - fee`. |
| `Accounts.MarkEffect` | src/main.rs:80 | Assumed `mark_to_market`: appends `Snapshot(t, price)` and changes nothing else. |
| `Accounts.Account.constructor` | src/main.rs:38 | A new account holds the given fund and position (quantity and cost), with empty trades and history. |
| `Accounts.Account.Open` | src/traders/generic_trader.rs:43 | The account's new state is `OpenEffect` of the old one. |
| `Accounts.Account.Close` | src/traders/generic_trader.rs:55 | The account's new state is `CloseEffect` of the old one. |
| `Accounts.Account.MarkToMarket` | src/main.rs:80 | The account's new state is `MarkEffect` of the old one, and the position, cost included, is unchanged. |
| `Traders.DetermineTrade` | src/traders.rs:131-134 | MACD returns `signals[1]` and fails iff there are fewer than 2 signals. HODL returns `signals[0]` and fails iff there are none (src/traders.rs:179-182). |
| `Traders.BuyEffect` | src/traders/generic_trader.rs:29-45 | With `q = (stake + fee) / price`, the account is `OpenEffect(a, t, q, price, fee)` if `q > 0`. Otherwise it is unchanged. |
| `Traders.SellEffect` | src/traders/generic_trader.rs:47-57 | With a positive position `q`, the account is `close` of all of `q` at the sell fee and ends with position 0. Otherwise it is unchanged. |
| `Traders.SessionKeepsPositionNonNegative` | src/traders/generic_trader.rs:47-57 | A session never leaves a short position: a buy adds a positive quantity and a sell closes exactly the quantity held (src/traders/generic_trader.rs:29-45). |
| `Traders.SellLiquidates` | src/traders/generic_trader.rs:53-55 | A sell from a positive position leaves quantity 0 and records the close of the whole position. |
| `Traders.SessionStep` | src/traders/generic_trader.rs:59-77 | An empty feed ends the session as `Exhausted`, with nothing changed. Otherwise one kline is consumed and the indicator is advanced on it, and a processed session reports that kline. History is untouched, at most one trade is appended, and earlier trades are kept. |
| `Traders.SessionDispatch` | src/traders/generic_trader.rs:69-73 | The session panics iff the decision rule fails. Buy gives `BuyEffect` and Sell gives `SellEffect`, both at the kline's `(end_time, close)`. Any other action leaves the account unchanged. |
| `Traders.KlineFeed.constructor` | src/main.rs:94 | The iterator starts at the first kline. |
| `Traders.KlineFeed.Next` | src/traders/generic_trader.rs:60 | Returns the next kline and advances, or returns `None` and stays put at the end. |
| `Traders.Trader.constructor` | src/traders.rs:107-112 | The trader holds the given configuration, feed and seeded indicator state. |
| `Traders.Trader.ExecuteBuy` | src/traders/generic_trader.rs:29-45 | The account's new state is `BuyEffect` of the old one. When no order is placed, the cost is unchanged too. |
| `Traders.Trader.ExecuteSell` | src/traders/generic_trader.rs:47-57 | The account's new state is `SellEffect` of the old one. With no position to sell, the cost is unchanged too. |
| `Traders.Trader.NextTradeSession` | src/traders/generic_trader.rs:59-77 | Feed position, indicator state, account and result are those of `SessionStep`. A session that records no trade leaves the cost unchanged. |
| `Traders.NewTrader` | src/traders.rs:98-113 | Consumes one kline to seed the indicator. Fails on an empty feed, leaving it as it was, and fails when seeding fails. |
| `Traders.NewMacdTrader` | src/traders.rs:98-113 | A MACD-deciding trader with the given fee and stake. It consumes the feed's first kline and holds the indicator state `init` seeds from it; an empty feed is left where it was. |
| `Traders.NewHodlTrader` | src/traders.rs:147-162 | A HODL-deciding trader that ignores its stake argument and stakes `FixPercentage(1)`. It consumes the feed's first kline and holds the indicator state `init` seeds from it; an empty feed is left where it was. |
| `Backtest.Run` | src/main.rs:71-85 | The loop ends where the feed ends, or earlier only on a panic. It always moves forward. |
| `Backtest.RunBacktest` | src/main.rs:71-85 | The trader, feed and account end as `Run` says, and the method reports whether the feed was exhausted. A position that was not short stays not short, and a run that records no trade leaves the cost unchanged. |
| `Backtest.RunMarksEveryKline` | src/main.rs:76-81 | The history gains `Snapshot(end_time, close)` for exactly the processed klines, once each and in feed order, after the old history. |
| `Backtest.RunTradesBounded` | src/main.rs:76-84 | A run appends at most one trade per consumed kline and keeps earlier trades. |
| `Backtest.RunKeepsPositionNonNegative` | src/main.rs:71-85 | A run that starts without a short position never ends with one. |
| `Backtest.RunCompletes` | src/main.rs:76-84 | If the indicator always emits the deciding signal, the run stops exactly when the feed is exhausted. |
| `Backtest.IdleRunKeepsAccount` | src/traders/generic_trader.rs:69-73 | A strategy that never acts keeps fund, position quantity and trades over the whole run. The history still grows by one entry per kline. |
| `Backtest.WiredMacdFirstBuyOverdraws` | src/main.rs:47-49 | With `FixPercentage(1)` and `PercentageFee(0.005)`, the first buy from the starting account leaves a negative fund. |
| `Backtest.WholeFundBuyWithoutFee` | src/traders/generic_trader.rs:29-45 | Fund 1000, price 100, whole fund, 0% fee: buys 10 and leaves fund 0. |
| `Backtest.WholeFundBuyAtHalfFee` | src/traders/generic_trader.rs:29-45 | The same at a 50% fee: fee 1000, buys 20, and the fund ends at -1000. |
| `Backtest.BacktestFromFirstKline` | src/main.rs:94-97 | On a trader that took the first of `n` klines, a completed run leaves exactly the marks of the other `n - 1`. |
| `Backtest.InitialiseAccount` | src/main.rs:29-40 | Fund 1000, quantity 0, cost 0, start time of the first kline. Fails on an empty list. |
| `Backtest.InitialiseMacdTrader` | src/main.rs:43-51 | The MACD trader with `FixPercentage(1)` and `PercentageFee(0.005)`, seeded by `init` on the first kline; an empty feed is left where it was. |
| `Backtest.BacktestDownloaded` | src/main.rs:93-97 | A run that reaches the end of the feed leaves the history with one snapshot for each kline after the first. The account never ends with a short position. |
| `Dca.MonthChangeSignal` | src/indicators/dca.rs:56-63 | `Buy(1)` iff the months differ, otherwise `NoAction`. |
| `Dca.DcaInstance.Init` | src/indicators/dca.rs:19-24 | The last timestamp is 2000-01-01 00:00:00, whatever the candle. |
| `Dca.DcaInstance.Next` | src/indicators/dca.rs:49-51 | The generic step emits an empty signal vector. |
| `Dca.DcaInstance.NextKline` | src/indicators/dca.rs:55-66 | Emits exactly one signal, matching the size `(0, 1)`: the month-change signal against the old last timestamp. The candle's start time is then stored. |
| `Dca.SignalsOverAt` | src/indicators/dca.rs:56-64 | Fed in order, candle `i` buys iff its month differs from the previous candle's month, or from the sentinel's for the first candle. |
| `Dca.FirstCandleBuysUnlessJanuary` | src/indicators/dca.rs:21 | From a fresh instance, the first candle buys iff it is not in January. |
| `Dca.YearIsIgnored` | src/indicators/dca.rs:57-59 | The same month in a different year emits no action. |
| `Dca.OneMonthBuysAtMostOnce` | src/indicators/dca.rs:56-64 | Candles all in one month buy at most once, and never if the last seen month is that month. |
| `DcaTrading.DcaIndicatorSignals` | src/indicators/dca.rs:54-66 | Through the trader's kline entry point, the indicator emits, candle by candle, exactly the vectors the instance emits. |
| `DcaTrading.DcaHodlRunCompletes` | src/traders/generic_trader.rs:67-69 | A HODL decision rule (src/traders.rs:179-182) on the kline entry point always finds its signal, so the run never panics. |
| `DcaTrading.DcaMacdPanics` | src/traders.rs:131-134 | A MACD decision rule on the kline entry point finds no signal 1, so the first session on a kline panics. |
| `DcaTrading.DcaCandleStepPanics` | src/indicators/dca.rs:49-51 | Through the generic entry point (src/traders.rs:76) there are no signals, so any decision rule panics on the first session. |

## Left out

- src/account.rs is not part of this model. `Open`, `Close` and `MarkToMarket` are assumed contracts that record exactly what the engine passes them. Their cash effects (outlay `q * price` leaves on open; `q * price - fee` arrives on close) are assumptions. The position's cost basis is stored in the `Account` object but is not part of `AccountState`. No contract says how `open` or `close` changes it. The constructor fixes it, at 0 for `initialise_acount`. `MarkToMarket` keeps the whole position. `ExecuteBuy`, `ExecuteSell`, `NextTradeSession` and `RunBacktest` keep the cost whenever they record no trade. Realized profit and loss and equity are not computed.
- The MACD and HODL indicator arithmetic lives in an external library. An indicator is a parameter: `init` seeds a state from a kline or fails, and `next` returns the next state and a signal vector.
- `Indicator.next` stands for whichever entry point the trader calls: `next` in src/traders.rs:76, `next_binance_kline` in src/traders/generic_trader.rs:67. For DCA the two entry points differ: `next` gives an empty vector (src/indicators/dca.rs:49-51), while `next_binance_kline` gives the month-change signal (src/indicators/dca.rs:55-66). `DcaTrading.DcaCandleIndicator` and `DcaTrading.DcaIndicator` model them. For MACD and HODL the kline entry point is not part of this model, and `Indicator.next` assumes it agrees with `next`. `Protocol` varies only the fixed-amount stake rule, not the entry point.
- `TradingRules.BuyFee`: requires a percentage rate other than 1, because the formula divides by `1 - rate`. In floating point that gives an infinity or NaN, which is not modelled.
- `TradingRules.BuyQuantity` and `Traders.Trader.ExecuteBuy`: require a non-zero price for the same reason. The session, run and driver members therefore require every kline's close to be non-zero (`Priced`) and the fee to be defined (`FeeDefined`).
- IEEE rounding is not modelled; all arithmetic is exact.
- Timestamps carry calendar fields only. No date arithmetic is modelled, and nothing checks the feed's time order, as the source does not.
- The signal strength carried by `Buy` and `Sell` is ignored by execution, as in the source.
- src/binance_data.rs (HTTP download, archives, CSV parsing, wall-clock dates) is left out. So are `download_kline`, logging, the async runtime and the final log lines of `main`.
- `initialise_hodl_trader` and `initialise_dca_trader` in src/main.rs are left out. The first calls the HODL constructor with a different arity than src/traders.rs defines. `DCATrader` is not part of this model.
- The trait-object borrowing of the feed is modelled as one `KlineFeed` object shared by driver and trader.
- `Traders.NewHodlTrader` and `Traders.NewMacdTrader` take the protocol revision as a parameter. `Backtest.InitialiseMacdTrader` wires the current one.
