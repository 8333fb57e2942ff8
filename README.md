# Bracket stop-limit order controller — Dafny model

This project models `placeStopLimitOrder` of the AutoTradingBot server
(`server.ts`). The function places a protective bracket trade on a
cryptocurrency exchange. It resolves the venue name and the API credentials,
then places a buy stop-limit entry order. It polls that order every 10 seconds
for at most 5 minutes. If the order never reads "closed", it cancels it. If it
does, it totals the fees of the entry's trades and places a sell limit
take-profit leg and a sell stop-limit stop-loss leg.

Modules:

- `Wrappers` (`wrappers.dfy`): `Option` and `Result`.
- `Venues` (`venues.dfy`): the venue-name map, the credential check and their
  errors. These are pure functions.
- `Fees` (`fees.dfy`): the trade filter, the left fold of fee costs and the
  currency pick. These are pure functions, with a per-trade reference sum they
  are proved equal to.
- `Exchange` (`exchange.dfy`): the exchange client as a `Gateway` class. Its
  replies come from a fixed `Script`: order ids, order statuses (past the end,
  "open"), extra delay per wait, the trade history, and the index of the one
  gateway call that fails, if any. It also holds a virtual clock and a ghost log
  of every call made. Each method is tied to a pure step function on `State`.
- `Controller` (`controller.dfy`): the imperative `PlaceStopLimitOrder` with its
  polling `while` loop. It is proved equal to the pure `Run`/`Poll`
  specification, and the lifecycle properties are lemmas about `Run`.

The model follows the code as written, not an idealised bracket controller
(one with a configurable side, price checks and typed errors). The entry side is always buy and the amount
always 0.01. There is no check that the stop-loss and take-profit prices
bracket the entry. Only "closed" ends the polling early: "canceled" and
"rejected" keep it going. Every error inside the `try` block, from the entry order on, is caught and only logged,
so the call ends quietly (`Swallowed`) instead of
reporting a typed error.

## Model

| member | source | states |
|---|---|---|
| `Venues.ToLower` | server.ts:40 | Lower-cases a name: same length, no upper-case ASCII letter left. |
| `Venues.ToUpper` | server.ts:45-48 | Upper-cases an exchange id: same length, no lower-case ASCII letter left. |
| `Venues.ExchangeIdOf` | server.ts:24-29 | A name resolves exactly when its lower-cased form is one of the map's own keys, to the map's value for that key, one of coinbasepro, binanceus or bybit. Any other name fails with UnsupportedExchange carrying the name as given. |
| `Venues.ExchangeIdIgnoresCase` | server.ts:40 | The lookup ignores letter case: an upper-cased name resolves to the same id, or fails the same way. |
| `Venues.KnownVenues` | server.ts:24-27 | "Coinbase", "BINANCE" and "ByBit" resolve to coinbasepro, binanceus and bybit. |
| `Venues.ExampleNameUnsupported` | example.ts:4-18 | The example passes "coinbasepro", an exchange id rather than a venue name, so it is rejected as unsupported whatever the environment. |
| `Venues.EnvName` | server.ts:45-48 | The variable name is the id with no lower-case letter and the same letters up to case (its upper-cased form), then `_`, then the suffix (API_KEY, API_SECRET or API_PASSPHRASE). |
| `Venues.IsSet` | server.ts:50 | A variable counts as present only when it is set and non-empty, as `!value` tests. |
| `Venues.CredentialsOf` | server.ts:45-52 | The credentials succeed exactly when `<ID>_API_KEY`, `<ID>_API_SECRET` and `<ID>_API_PASSPHRASE` are all set and non-empty; the values are those variables. Otherwise it fails with MissingCredentials. |
| `Venues.Resolve` | server.ts:40-52 | The venue check comes first: an unknown name fails with UnsupportedExchange whatever the environment. For a known name, it succeeds exactly when its three variables are set and non-empty, carrying the mapped id and those three values, and otherwise fails with MissingCredentials. |
| `Venues.ResolveSucceeds` | server.ts:40-52 | A supported name whose three variables are set always resolves. |
| `Venues.InheritedNamePassesGuard` | server.ts:40-43 | As written, "Constructor" passes the `!exchangeId` guard (it finds an inherited Object property), while the corrected lookup rejects it as unsupported. |
| `Fees.Relevant` | server.ts:109-111 | Every filtered trade belongs to the entry order and every trade of the entry order is kept; the list is no longer than the history. |
| `Fees.RelevantAppend` | server.ts:109-111 | Filtering a concatenation is the concatenation of the filtered parts, so the history order is kept. |
| `Fees.RelevantMultiplicity` | server.ts:109-111 | Each trade of the entry order is kept as many times as it occurs, and every other trade zero times. |
| `Fees.CostOf` | server.ts:113 | A trade's cost is `fee.cost`, or 0 when it has no fee or the fee has no cost. |
| `Fees.CurrencyOf` | server.ts:116 | A trade's currency is its fee currency when present and non-empty, otherwise "unknown"; never empty. |
| `Fees.Reduce` | server.ts:112-115 | The left fold of costs from a start value; with non-negative costs it never drops below the start, with zero costs it is the start. |
| `Fees.TotalFee` | server.ts:109-115 | The fold from 0 over the filtered trades; it is 0 when no trade belongs to the entry order. |
| `Fees.FeeCurrency` | server.ts:116 | The currency is never empty. Anything other than "unknown" is the fee currency of a trade of the entry order. |
| `Fees.TotalFeeIsMatchingSum` | server.ts:109-115 | The filter-then-fold total equals the per-trade sum: each trade of the entry adds `fee.cost`, or 0 without a fee or cost, and other trades add nothing. |
| `Fees.ReduceFromAcc` | server.ts:112-115 | Folding from any start value adds that value to the fold from 0. |
| `Fees.TotalFeeAppend` | server.ts:112-115 | The total over two concatenated histories is the sum of the two totals. |
| `Fees.ForeignTradeIgnored` | server.ts:109-115 | Inserting a trade of another order anywhere leaves the total unchanged. |
| `Fees.OwnTradeAdds` | server.ts:112-115 | Inserting a trade of the entry order anywhere adds exactly its cost. |
| `Fees.NoMatchNoFee` | server.ts:109-116 | With no trade of the entry order, including no trades at all, the total is 0 and the currency "unknown". |
| `Fees.TotalFeeNonNegative` | server.ts:112-115 | Non-negative costs give a non-negative total. |
| `Fees.FeeCurrencyOfFirstMatch` | server.ts:116 | The currency is that of the first trade of the entry order in history order. It is "unknown" when that trade has no fee, or no or an empty currency. |
| `Fees.FirstRelevant` | server.ts:109-111 | The first filtered trade is the first trade of the entry order in the history. |
| `Exchange.WaitStep` | server.ts:87 | A wait advances the clock by at least the requested time. |
| `Exchange.Gateway.constructor` | server.ts:54-59 | A new gateway has its script, the given clock, no replies consumed and an empty call log. |
| `Exchange.Gateway.Sleep` | server.ts:87 | Sleeping advances the clock by the interval plus the scripted delay and logs the wait. |
| `Exchange.Gateway.Create` | server.ts:71-78 | Order placement is logged with all its arguments. It fails at the scripted call, or returns the next scripted id. |
| `Exchange.Gateway.Fetch` | server.ts:88 | A status query is logged and returns the next scripted status, or fails at the scripted call. |
| `Exchange.Gateway.Cancel` | server.ts:103 | Cancellation is logged with the order id and pair, and fails only at the scripted call. |
| `Exchange.Gateway.MyTrades` | server.ts:108 | A trade-history query is logged with the pair and returns the scripted trades, or fails at the scripted call. |
| `Controller.EntryOrder` | server.ts:61-62 | The entry is a buy stop-limit order of 0.01 at `buyPrice`, triggered at `stopPrice` (lines 71-78). |
| `Controller.TakeProfitOrder` | server.ts:120-126 | The take-profit leg is a sell limit order of 0.01 at `tpPrice`, opposite the entry side and of the entry's size. |
| `Controller.StopLossOrder` | server.ts:127-134 | The stop-loss leg is a sell stop-limit order of 0.01 at `slPrice` triggered at `slPrice`, opposite the entry side and of the entry's size. |
| `Controller.Poll` | server.ts:82-97 | The loop's specification: it only extends the call log, never moves the clock back, places nothing, gives up only at or past the time limit, and reports a failure only when one is scripted. |
| `Controller.Bracket` | server.ts:107-136 | After a fill, the run ends either with the bracket placed or with a caught error. With no scripted failure it always places the bracket, and it reports the entry id and the fee total and currency of the entry's trades. |
| `Controller.Run` | server.ts:32-141 | The whole run's specification: it throws exactly when configuration fails, and then touches nothing. It only extends the call log. With no scripted failure it ends with the bracket placed or the entry cancelled. |
| `Controller.Opposite` | server.ts:123 | The leg side differs from the entry side. |
| `Controller.PlaceStopLimitOrder` | server.ts:32-141 | The imperative controller leaves the gateway in exactly the state, with exactly the call log, and returns exactly the outcome that the specification `Run` gives for the old gateway state. |
| `Controller.PollTrace` | server.ts:85-97 | Polling makes only wait-then-query rounds, one gateway call each, and places nothing. A failed query is the last call. A loop that did not fail met no scripted failure. |
| `Controller.PollTiming` | server.ts:63 | A round starts only while less than 300000 ms have passed. Rounds are at least 10000 ms apart. A loop that gives up has reached the limit. |
| `Controller.PollAtMostThirtyRounds` | server.ts:82-88 | Starting at the entry time, the loop makes between 1 and 30 status polls. |
| `Controller.PollStatuses` | server.ts:88-96 | A fill is reported exactly when the last status read was "closed". Every other status read, including canceled or rejected, kept the loop going. |
| `Controller.PollNeverClosed` | server.ts:82-97 | With exact 10000 ms waits, no failure and no "closed" status, the loop runs exactly 30 rounds and gives up. |
| `Controller.RunRejectsConfiguration` | server.ts:40-52 | A configuration error is thrown with no gateway call made. The unsupported-venue error wins over missing credentials. |
| `Controller.RunSwallowsGatewayErrors` | server.ts:65-78 | Once configuration resolves, nothing is thrown. The first call is the buy stop-limit entry of 0.01 at `buyPrice` with `stopPrice`. A gateway failure ends the run right after the failing call (line 138-140). A run that does not end that way met no failure. |
| `Controller.RunBracketed` | server.ts:99-136 | A bracketed run made exactly these calls: the entry, 1 to 30 polls (the last read "closed"), the trade history, a sell limit 0.01 at `tpPrice`, and a sell stop-limit 0.01 at `slPrice` triggered at `slPrice`. The fees are those of the entry's trades. |
| `Controller.RunCanceled` | server.ts:99-105 | A cancelled run made exactly these calls: the entry, 1 to 30 polls (none read "closed") ending at or after the time limit, then one `cancelOrder(entry, pair)`. It fetched no trades and placed no legs. |
| `Controller.RunAfterPoll` | server.ts:99-140 | For every run whose entry was placed, by how polling ended: after a failed status query nothing more is called; after the time limit exactly one `cancelOrder(entry, pair)` follows, even when it fails, with no trades query and no legs; after a fill the remaining calls are a prefix of trades, sell limit TP, sell stop-limit SL, and never a cancel, so a failed SL leaves the TP placed. |
| `Controller.CountsOfRounds` | server.ts:86-88 | k polling rounds hold k status queries and no placement, cancellation or trade query. |
| `Controller.RunCallCounts` | server.ts:71-134 | A bracketed run places 3 orders, queries trades once and never cancels. A cancelled run places 1 order, cancels exactly once and never queries trades. Both poll 1 to 30 times. |
| `Controller.RunNeverClosed` | server.ts:82-105 | With exact waits, no failure and the order never "closed", the run polls exactly 30 times, then cancels the entry once. |
| `Controller.ExampleFilledOnThirdPoll` | server.ts:61-136 | BTC/USD on "coinbase": "open", "open", "closed" yields the bracket with total fee 1.5 USD. A trade of another order is ignored. TP is a sell limit at 31000 and SL a sell stop-limit at 29500. |
| `Controller.CanceledStatusKeepsPolling` | server.ts:90-96 | A "canceled" status does not stop polling: a later "closed" still places both legs, with fee 0 and currency "unknown" when there are no trades. |

## Left out

- The trading client's construction of the exchange object (server.ts:54-59) and its REST behaviour. The gateway is a script of replies and a call log; a failure of that constructor, which stands outside the `try` block and would propagate to the caller, is not modelled.
- The logger and every log line (server.ts:8-21, and the `logger` calls). They change no state and no gateway call. `placeStopLimitOrder` resolves to `undefined` on every path that does not throw; the model's `Outcome` records which path ran instead: `Swallowed` for the error caught and logged at server.ts:138-140, `Canceled` for the timeout path, and `Bracketed` for the fill path, whose fee total and currency stand for the log line at server.ts:117 and whose leg ids for those at server.ts:135-136.
- Loading the `.env` file (server.ts:5-6). The environment is a `map<string, string>` parameter.
- `Date.now` and `setTimeout` (server.ts:82, 86-87). They are a virtual clock that a wait advances by its interval plus a scripted extra delay. Asynchronous suspension is not modelled. The virtual clock never goes backward; the real wall clock can be set back, and then the source's loop can poll more than 30 times, without bound. The 30-poll bound and the loop's termination hold only for a clock that moves forward.
- Floating-point arithmetic. Prices, the amount and fee costs are `real`, and the fee sum is exact.
- `Venues.ToLower`, `Venues.ToUpper`: only ASCII letters change case, not JavaScript's full Unicode case mapping.
- `Venues.ExchangeIdOf`: it is the corrected lookup over the map's own keys. The source's acceptance of inherited names such as "constructor" (then a TypeError at `toUpperCase`, still before any order) is exhibited only by `Venues.InheritedNamePassesGuard`.
- `Fees.Relevant`: the entry id is always a string. A trade with no order id never matches, whereas in the source an undefined `order.id` would match such trades.
- Gateway failures: at most one call fails in a run. That is enough, because the first failure leaves the `try` block. The kind of error is not modelled.
- example.ts is modelled only through the venue name it passes (`Venues.ExampleNameUnsupported`).

## Findings

| source | as written | input that shows it | evidently intended | confidence | as-written member | corrected member |
|---|---|---|---|---|---|---|
| server.ts:40-45 | The venue lookup reads a property of a plain object, so a name whose lower-cased form is inherited from Object.prototype ("constructor", "__proto__") passes the `!exchangeId` guard. `toUpperCase` on the function found then throws a TypeError, not "Unsupported exchange". | exchange name "Constructor" | reject every name that is not one of the map's own keys with "Unsupported exchange" | high; not executed | `Venues.InheritedNamePassesGuard` | `Venues.ExchangeIdOf` |
