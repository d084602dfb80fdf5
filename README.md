# Arbitrage trader: a Dafny model of the trading core

This project models the core of a small cryptocurrency trading daemon. The daemon polls a
market-data feed and one exchange ("venue"). For each asset in {BTC, ETH, XRP} it computes
how far the venue's best bid lies above the market close price ("profit potential", a
percentage). For each asset above 0.5 percent it places a fixed 0.01-unit limit buy, and
it adds the bought quantity to an in-memory portfolio. A `running` flag keeps the main
loop alive until a shutdown request clears it. Three trader variants (Coinbase, Gemini,
Binance) differ only in which config section they read. Each variant picks sandbox
credentials in test mode and production credentials otherwise.

Modules, following the program's components:

- `Assets` (assets.dfy): the fixed asset list, tickers ("BTC-USD") and pairs ("BTC/USD").
- `Exchange` (exchange.dfy): the `ExchangeType` enumeration, the command-line name table,
  the configuration record and the three variants' client options.
- `Arbitrage` (arbitrage.dfy): `calculate_arbitrage`. The method `CalculateArbitrage` is the
  source's loop. It is proved equal to the loop-free specification `Evaluate`, and the
  properties are proved as lemmas about `Evaluate`.
- `Execution` (execution.dfy): the specification of `execute_trades`, meaning the orders it
  submits (`PlannedOrders`) and the portfolio it leaves (`Traded`, `Execute`).
- `Trader` (trader.dfy): the class `CryptoTrader`, which holds `portfolio`, `running` and
  `financeData` and has the methods `ExecuteTrades`, `Stop` and `Run`. A turn-by-turn
  specification of the main loop (`Step`, `Replay`) comes with lemmas about it.

The network and the clock become inputs:

- The market-data download is an `Option<MarketData>`: a map from ticker to latest close,
  or None when the download raised.
- The order-book answers are a map from pair to `BookReply`. `BookError`, or no entry for
  the pair, means the request raised.
- The venue's answers to buy orders are the set `filled` of pairs whose buy call returns.
- The scheduler is a sequence of `Tick`s: no job due, both hourly jobs due, or a shutdown
  request.

Where the design description and the code differ, the model follows the code:

- A failed market-data download leaves the previous frame in `finance_data` (:73-80). The
  next evaluation can therefore use stale prices (`Refresh`), not "no data this cycle".
- Bid and ask must be truthy, meaning present and non-zero, not only present (:95).
- Test mode is enforced in `execute_trades` (:119), not at the client boundary. The client
  only receives `test = test_mode`.
- A missing market price is not a per-asset failure. The lookup (:89) sits outside the
  per-symbol `try`, so the error aborts the whole evaluation (`LookupFailed`). It escapes
  `execute_trades` and is caught only by the main loop (:141-143).

## Model

| member | source | states |
|---|---|---|
| `Exchange.ParseExchange` | crypto_trader_v1.0.py:218-222 | a command-line name maps to a venue exactly when it is one of "coinbase", "gemini", "binance", and to the venue whose stored string is that name |
| `Exchange.ParseValue` | crypto_trader_v1.0.py:21-24 | every venue's enumeration string is an accepted name and maps back to that venue, so the enumeration and the name table are one-to-one |
| `Exchange.CoinbaseExchange` | crypto_trader_v1.0.py:150-158 | the Coinbase client uses the coinbase section's sandbox key and secret in test mode and its production pair otherwise, with rate limiting and `test = test_mode` |
| `Exchange.GeminiExchange` | crypto_trader_v1.0.py:160-168 | the same selection from the gemini section |
| `Exchange.BinanceExchange` | crypto_trader_v1.0.py:170-178 | the same selection from the binance section |
| `Exchange.InitializeExchange` | crypto_trader_v1.0.py:185-191 | the variant chosen for a venue builds a client for that venue from that venue's own section under the mode rule |
| `Exchange.OwnSectionOnly` | crypto_trader_v1.0.py:152-155 | the client options depend only on the chosen venue's section: configurations that agree on it give equal options |
| `Exchange.SandboxIffTestMode` | crypto_trader_v1.0.py:154-157 | when sandbox and production keys differ, the sandbox key and secret are chosen if and only if test mode is on |
| `Arbitrage.Best` | crypto_trader_v1.0.py:92-93 | a side's best price is present exactly when the side is non-empty, and then it is the first level's price |
| `Arbitrage.FirstUnpriced` | crypto_trader_v1.0.py:88-89 | the position of the first asset whose market price is missing: every earlier asset has a price, and that asset has none |
| `Arbitrage.CalculateArbitrage` | crypto_trader_v1.0.py:82-107 | the evaluation loop returns exactly the specified evaluation and makes exactly the specified order-book requests, in order |
| `Arbitrage.NoDataShortCircuits` | crypto_trader_v1.0.py:84-85 | absent or empty market data yields no evaluation and no order-book request, whatever the venue would answer |
| `Arbitrage.FoundOpportunity` | crypto_trader_v1.0.py:92-103 | an asset is in the result if and only if it is one of the three, the venue answered, bid, ask and market price are non-zero and (bid − price)/price × 100 > 0.5; its record holds that percentage and the three prices unchanged; all three order books were requested |
| `Arbitrage.LookupFailureAborts` | crypto_trader_v1.0.py:88-91 | the evaluation fails if and only if some asset's market price is missing; it names the first such asset, and only the order books of the assets before it were requested |
| `Arbitrage.BookFailureIsolated` | crypto_trader_v1.0.py:90-105 | a failed order-book request for one asset removes exactly that asset from the result and leaves every other entry and the outcome's kind unchanged |
| `Arbitrage.PremiumIff` | crypto_trader_v1.0.py:96-97 | for a positive market price, passing the threshold means exactly that the bid is above 1.005 times the market price |
| `Arbitrage.AboveThresholdScenario` | crypto_trader_v1.0.py:95-103 | market price 100, bid 100.6, ask 101 give a kept opportunity of 0.6 percent |
| `Arbitrage.BelowThresholdScenario` | crypto_trader_v1.0.py:95-97 | market price 100, bid 100.4 give no opportunity |
| `Execution.InitialPortfolio` | crypto_trader_v1.0.py:29 | the portfolio starts with exactly BTC, ETH and XRP, each at zero |
| `Execution.TradedAt` | crypto_trader_v1.0.py:116-125 | after the walk, every holding has gained exactly 0.01 if its symbol had an opportunity and its buy returned, and is unchanged otherwise; no symbol is added or removed |
| `Execution.PlannedOrdersAre` | crypto_trader_v1.0.py:116-124 | every order submitted is for an opportunity, with pair "symbol/USD", quantity 0.01 and limit price the market price; every opportunity gets one; none when there is no opportunity |
| `Execution.PlannedOrdersCount` | crypto_trader_v1.0.py:116-124 | when no symbol is walked twice, the number of orders equals the number of walked symbols with an opportunity, so no opportunity is bought twice |
| `Execution.PlannedOrdersAppend` | crypto_trader_v1.0.py:116-124 | walking one list of symbols and then another submits the first list's orders first, then the second's |
| `Execution.LiveOrdersInAssetOrder` | crypto_trader_v1.0.py:116-124 | a live execution submits the BTC order, then ETH, then XRP, each exactly when that asset is an opportunity |
| `Execution.NothingPlaced` | crypto_trader_v1.0.py:111-114 | in test mode, with no data, with no opportunity or when the evaluation raised, no order is submitted and the portfolio is unchanged |
| `Execution.LiveExecution` | crypto_trader_v1.0.py:116-130 | in live mode a returned buy adds exactly 0.01, a raised buy or a symbol without opportunity leaves its entry unchanged, and every order is for an opportunity's pair at its market price |
| `Execution.ExecuteNeverDecreases` | crypto_trader_v1.0.py:125 | no execution lowers a holding or changes the set of held symbols |
| `Trader.StepRunning` | crypto_trader_v1.0.py:145-147 | after a turn the loop is running exactly when it was running and the turn was not a shutdown request |
| `Trader.FailingCycleContinues` | crypto_trader_v1.0.py:137-143 | a cycle whose evaluation raises is caught: the loop keeps running, and portfolio and submitted orders are unchanged |
| `Trader.ReplayRunning` | crypto_trader_v1.0.py:137-147 | a running loop is still running after a sequence of turns if and only if none of them was a shutdown request |
| `Trader.StoppedIsFinal` | crypto_trader_v1.0.py:137 | once the running flag is clear, no further turn changes anything |
| `Trader.NothingAfterShutdown` | crypto_trader_v1.0.py:137-147 | the turns after the first shutdown request never run: the result is that of the turns before it, with the flag cleared |
| `Trader.ReplayNeverDecreases` | crypto_trader_v1.0.py:125 | over any run of the loop no holding decreases and the held symbols stay the same |
| `Trader.TestModeRunKeepsPortfolio` | crypto_trader_v1.0.py:119-128 | in test mode no run of the loop submits an order or changes the portfolio |
| `Trader.CryptoTrader.constructor` | crypto_trader_v1.0.py:27-34 | a new trader has zero holdings, is running, has no market data, has submitted nothing, and holds the chosen variant's client options for its mode |
| `Trader.CryptoTrader.GetFinanceData` | crypto_trader_v1.0.py:73-80 | a successful download replaces the market-data frame; a failed one leaves the previous frame |
| `Trader.CryptoTrader.ExecuteTrades` | crypto_trader_v1.0.py:109-130 | the trading job yields exactly the specified outcome (raised, orders, new portfolio), keeps the portfolio invariant and records the orders it submits in the ghost history `sent` |
| `Trader.CryptoTrader.BuyOpportunities` | crypto_trader_v1.0.py:116-130 | the walk submits exactly the planned orders and leaves exactly the traded portfolio in live mode, and submits nothing and changes nothing in test mode |
| `Trader.CryptoTrader.Stop` | crypto_trader_v1.0.py:145-147 | a shutdown request clears the running flag and nothing else |
| `Trader.CryptoTrader.Run` | crypto_trader_v1.0.py:132-143 | the main loop's final state is exactly the turn-by-turn specification over the given turns; the portfolio invariant holds throughout |

## Left out

- Logging (the logger set-up at :36-43 and every log call): side effects only. Each point where the source logs is marked by a comment, in a branch that does nothing else where the source's branch only logs.
- The hard-coded placeholder configuration (:45-67): the configuration is an input record with one section per venue. The placeholder always has all three sections, so a missing section or key (a fatal start-up error) is not modelled.
- The market-data download (:76-77), `fetch_order_book` and `create_limit_buy_order`: foreign network calls, replaced by the inputs described above. The order returned by a buy is only logged by the source and is not modelled.
- The market-data frame is modelled as a map from ticker to latest close, and absent or empty counts as no data. The source tests `not self.finance_data` on a pandas DataFrame (:84), and the library raises on that test. That library behaviour is outside this model: the model takes the evident intent, "no frame or an empty frame". The close-series indexing `iloc[-1]` is reduced to one price per ticker.
- Floating point and NaN: prices are `real`. A NaN price, which the source would treat as truthy, is not modelled.
- The scheduler library, the hourly cadence and the sleeps of 60 and 300 seconds (:134-143): a turn is a `Tick`. Both hourly jobs are due in the same turn and run market data first, as they were registered. The longer sleep after an error is not modelled.
- `Trader.CryptoTrader.Run`: the source loops forever. The model runs until the running flag is clear or the given turns run out.
- Daemonisation, the pid lock, signal handlers, `sys.exit` and argument parsing (:180-224): operating-system and command-line glue. A signal's `stop()` is a `Shutdown` turn between turns. The `sys.exit` that follows it ends the process, which the model covers as "no further turn runs". A signal arriving in the middle of a cycle is not modelled. Of the command line, only the name-to-venue table (`ParseExchange`) is kept.
- `Trader.CryptoTrader.BuyOpportunities`: the source iterates the opportunity dictionary in insertion order. The model walks the asset list it is given (the caller passes the fixed list) and skips symbols without an opportunity. This is the same walk, because the evaluation inserts in that list's order.
