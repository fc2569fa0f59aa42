# arbitraj: a verified model of the funding-arbitrage dashboard core

The arbitraj dashboard watches perpetual-swap funding rates on five venues
(Binance, OKX, Hyperliquid, Bybit, Asterdex) and the USDT/TRY quote on four
Turkish venues (Binance TR, BTCTurk, OKX TR, Paribu). It scores every venue
pair for a funding-rate arbitrage and broadcasts the best ten per pair, an
all-coins table and the TRY quotes to the browser. This project models the
core of that system in Dafny and proves properties of the model:

- **the scorer** (`Arbitrage`, from `services/arbitrage.service.js`). `analyzeArbitrage`
  picks a direction from the sign of the rate gap and charges the cross-venue
  spread plus taker fees on entry and again on exit. `getArbitrageOpportunities`
  skips coins either venue lacks and sorts by net profit, highest first.
- **the funding calculator** (`FundingCalculator`, from `services/funding-calculator.js`):
  the per-leg pay/receive flags, the net rate, the first-period collection
  count, the annual figures and the next funding grid time;
- **the venue feeds** (`BaseWs`, `BinanceWs`, `OkxWs`, `HyperliquidWs`,
  `BybitWs`, `AsterdexWs`, `BtcTurkWs`, `OkxTrWs`, `BinanceTrWs`, `Paribu`).
  Each one is a class whose fields are the adapter's cache or record and its
  socket, ping and reconnect state. Each socket or timer event is one method,
  run to completion as on the single-threaded event loop. The feeds share:
  - `Cache`: a batch of per-key writes, where the last write wins;
  - `Backoff` and `RetryTimer`: the capped exponential reconnect delay and the
    guarded single pending timer;
  - `Quotes`: the shared records and the `parseFloat(x) || fallback` rule;
- **the lookups and tables**:
  - `Metadata`, from `services/metadata.service.js`: the funding-interval tables;
  - `CommonCoins` and `CoinList`, from `scripts/fetch-common-coins.js` and
    `services/coin-list.js`: the cross-venue coin intersection and its defaults;
  - `Server`, from `server.js`: the TRY table, the all-coins table and the
    per-pair top ten.

Every `for`/`forEach` loop the source runs is a `while` loop in the model. The
`.filter().map()` chains of the common-coins script and the `.map` calls over
the coin list are recursive functions or sequence comprehensions instead
(`CommonCoins.BinanceCandidates`, `CommonCoins.OkxCandidates`, `CoinList.Coins`,
`Server.AllExchangeData`). Each loop's invariant ties
the partial state to an index-based specification function: `Cache.Run` for
cache writes, `Gather.Kept` for conditional pushes, `RatesUpTo`,
`IncludedUpTo`. Lemmas then state what the source promises about those
functions: which keys change, who wins on a repeated key, membership,
ordering and bounds. Rates and prices are `real`. A `parseFloat` or
`parseInt` result is an `Option`, with `None` for NaN, wherever the code
branches on it. Times are integer milliseconds, and `now` is always a
parameter.

## Model

| member | source | states |
|---|---|---|
| Backoff.Pow2 | services/websocket/base.ws.js:60 | `Math.pow(2, n)` is at least 1 |
| Backoff.Delay | services/websocket/base.ws.js:60 | the capped exponential delay lies between its base and its cap |
| Backoff.Pow2Monotone | services/websocket/base.ws.js:60 | powers of two never decrease as the exponent grows |
| Backoff.DelayMonotone | services/websocket/base.ws.js:60 | a later attempt never waits less than an earlier one |
| Backoff.DelaySaturates | services/websocket/base.ws.js:60 | once the uncapped delay reaches the cap, every later delay is the cap |
| BaseWs.ReconnectDelay | services/websocket/base.ws.js:60 | the base feeds wait between 1 s and 30 s before reconnecting |
| BaseWs.ReconnectDelayShape | services/websocket/base.ws.js:58-66 | delays never shrink; 1 s on the first try, 16 s on the fifth, 30 s from the sixth try on |
| BaseWs.BaseSocket.constructor | services/websocket/base.ws.js:5-14 | a new feed has no socket, no ping, no pending reconnect, zero attempts and an empty cache |
| BaseWs.BaseSocket.Connect | services/websocket/base.ws.js:16-23 | a connect while connecting or open does nothing; otherwise a new socket is opening; if the socket constructor throws, exactly one reconnect is scheduled with the current delay (lines 52-55) |
| BaseWs.BaseSocket.HandleOpen | services/websocket/base.ws.js:25-31 | opening completes: the socket is open, the connecting flag is cleared, the attempt counter resets |
| BaseWs.BaseSocket.HandleError | services/websocket/base.ws.js:47-50 | an error closes an opening or open socket and leaves any other socket state alone |
| BaseWs.BaseSocket.Reconnect | services/websocket/base.ws.js:58-67 | exactly one more timer is pending, with the backoff delay for the current attempt count, and the connecting flag is cleared |
| BaseWs.BaseSocket.Cleanup | services/websocket/base.ws.js:69-74 | afterwards no ping runs; repeating it is harmless |
| BaseWs.BaseSocket.HandleClose | services/websocket/base.ws.js:41-45 | a close stops the ping and schedules one reconnect while keeping the cache and the attempt count |
| BaseWs.BaseSocket.TimerFired | services/websocket/base.ws.js:16-66 | a fired timer counts one more attempt, then runs `connect`. While a connection is opening or open nothing else changes. Otherwise a new socket starts opening, or, when the socket constructor throws, `isConnecting` is cleared and the next reconnect is scheduled at the new count's delay. The cache and the ping state are kept |
| BaseWs.BaseSocket.GetData | services/websocket/base.ws.js:88-90 | the cached entry for a symbol, and nothing for an unknown symbol |
| RetryTimer.RetryDelay | services/websocket/btcturk.ws.js:118 | the standalone feeds wait between 5 s and 60 s |
| RetryTimer.RetryDelayShape | services/websocket/btcturk.ws.js:115-126 | delays never shrink: 5 s at first, 40 s on the fourth try, 60 s from the fifth try on |
| RetryTimer.Retry.constructor | services/websocket/btcturk.ws.js:19-20 | no reconnect is pending and no attempt has been made |
| RetryTimer.Retry.Schedule | services/websocket/btcturk.ws.js:115-121 | at most one reconnect timer is ever pending: a second call schedules nothing |
| RetryTimer.Retry.Fire | services/websocket/btcturk.ws.js:121-124 | a fired timer counts one more attempt and releases the handle |
| RetryTimer.Retry.Cancel | services/websocket/btcturk.ws.js:133-136 | afterwards no reconnect is pending |
| RetryTimer.Retry.ResetAttempts | services/websocket/btcturk.ws.js:30 | a successful open forgets earlier attempts |
| RetryTimer.Link.constructor | services/websocket/btcturk.ws.js:9-21 | a new standalone feed has no socket and a fresh retry state |
| RetryTimer.Link.Connect | services/websocket/btcturk.ws.js:23-56 | connect always opens a new socket (there is no guard); if the socket constructor throws, it reconnects instead |
| RetryTimer.Link.HandleOpen | services/websocket/btcturk.ws.js:28-32 | the socket is open and the attempt counter resets |
| RetryTimer.Link.HandleClose | services/websocket/btcturk.ws.js:47-50 | a close schedules a reconnect unless one is already pending |
| RetryTimer.Link.TimerFired | services/websocket/btcturk.ws.js:121-125 | a fired timer counts an attempt, clears the handle and connects again |
| RetryTimer.Link.Disconnect | services/websocket/btcturk.ws.js:132-140 | no reconnect stays pending, and an opening or open socket starts closing |
| Cache.RunUntouched | services/websocket/binance.ws.js:12-25 | a key that no element of the batch writes keeps its entry, or stays absent |
| Cache.RunLast | services/websocket/binance.ws.js:12-25 | the last element that writes a key decides that key's entry |
| Cache.RunKeys | services/websocket/binance.ws.js:12-25 | a batch removes no key, every written key is present, and every new key was written by some element |
| BinanceWs.AfterMessage | services/websocket/binance.ws.js:8-26 | a non-array payload leaves the cache alone; otherwise the keys afterwards are the old keys plus every symbol in the array |
| BinanceWs.LastTickWins | services/websocket/binance.ws.js:18-24 | a symbol's entry is replaced whole by its last ticker: mark price, rate times 100, next funding time, stamped with the arrival time |
| BinanceWs.UnnamedSymbolKept | services/websocket/binance.ws.js:12-25 | symbols not named by the message keep their entries |
| BinanceWs.BinanceFeed.constructor | services/websocket/binance.ws.js:4-6 | the feed starts as a base feed with an empty cache |
| BinanceWs.BinanceFeed.OnMessage | services/websocket/binance.ws.js:8-26 | the in-place loop leaves the cache equal to the message's effect on the old cache |
| OkxWs.AfterFrame | services/websocket/okx.ws.js:31-59 | pong, unparseable and data-less frames change nothing; only the entry of `data[0].instId` changes. That entry is created if absent. A mark-price frame sets exactly price and timestamp; a funding-rate frame sets exactly rate (times 100) and next funding time; other channels keep the entry |
| OkxWs.OkxFeed.constructor | services/websocket/okx.ws.js:4-7 | a missing symbol list becomes the empty list |
| OkxWs.OkxFeed.SubscriptionArgs | services/websocket/okx.ws.js:18-22 | two subscriptions per symbol in symbol order: mark-price, then funding-rate |
| OkxWs.OkxFeed.Open | services/websocket/okx.ws.js:9-29 | opening resets the attempt count, starts the ping and sends exactly the two-per-symbol subscription |
| OkxWs.OkxFeed.PingTick | services/websocket/okx.ws.js:10-14 | a ping is sent exactly when the socket is open |
| OkxWs.OkxFeed.OnMessage | services/websocket/okx.ws.js:31-59 | the field-by-field updates in place amount to the frame's effect on the old cache |
| BybitWs.TopicArgs | services/websocket/bybit.ws.js:63-66 | one topic per symbol, in order, each `tickers.` followed by the symbol |
| BybitWs.SubscribedTopicsAccepted | services/websocket/bybit.ws.js:28-65 | every topic the feed subscribes to passes its own message filter and names its symbol |
| BybitWs.AfterMessage | services/websocket/bybit.ws.js:23-42 | a `tickers.` message with data replaces that symbol's entry whole (rate times 100, no timestamp) and keeps every other entry; anything else changes nothing |
| BybitWs.BybitFeed.constructor | services/websocket/bybit.ws.js:4-10 | an empty symbol list means BTCUSDT, ETHUSDT and SOLUSDT |
| BybitWs.BybitFeed.Connect | services/websocket/bybit.ws.js:12-58 | connect opens a new socket unguarded; if the socket constructor throws, a 5 s reconnect is scheduled unless one is pending |
| BybitWs.BybitFeed.Open | services/websocket/bybit.ws.js:17-80 | on open, one topic per symbol is sent and the ping starts |
| BybitWs.BybitFeed.PingTick | services/websocket/bybit.ws.js:75-79 | a ping is sent exactly when the socket is open |
| BybitWs.BybitFeed.StopPing | services/websocket/bybit.ws.js:82-87 | afterwards no ping runs |
| BybitWs.BybitFeed.Reconnect | services/websocket/bybit.ws.js:89-97 | one fixed 5 s timer at most; a second call schedules nothing |
| BybitWs.BybitFeed.Close | services/websocket/bybit.ws.js:48-52 | a close stops the ping and leaves a reconnect pending |
| BybitWs.BybitFeed.TimerFired | services/websocket/bybit.ws.js:92-96 | the handle is cleared before connecting again |
| BybitWs.BybitFeed.Disconnect | services/websocket/bybit.ws.js:103-112 | afterwards no ping runs, no reconnect is pending, and the socket starts closing |
| BybitWs.BybitFeed.DisconnectThenClose | services/websocket/bybit.ws.js:103-112 | when an opening or open socket is disconnected, the close event that follows schedules a new reconnect, so the feed does not stay down |
| BybitWs.BybitFeed.OnMessage | services/websocket/bybit.ws.js:23-42 | the handler's effect on the cache is exactly one message's effect |
| BybitWs.BybitFeed.GetData | services/websocket/bybit.ws.js:99-101 | the stored entry for a symbol, or nothing |
| AsterdexWs.AfterMessage | services/websocket/asterdex.ws.js:36-58 | messages from other streams change nothing; no entry is removed; every new key ends in USDT |
| AsterdexWs.NonUsdtUnchanged | services/websocket/asterdex.ws.js:45 | a symbol not ending in USDT is never stored or changed |
| AsterdexWs.UnnamedSymbolKept | services/websocket/asterdex.ws.js:41-53 | a symbol that no element of a mark-price message names keeps its entry, or stays absent |
| AsterdexWs.LastUsdtTickWins | services/websocket/asterdex.ws.js:44-53 | a USDT symbol's entry is replaced whole by its last ticker, rate times 100 |
| AsterdexWs.AsterdexFeed.constructor | services/websocket/asterdex.ws.js:4-8 | no socket, no pending reconnect; the undefined attempt count reads as 0 |
| AsterdexWs.AsterdexFeed.Connect | services/websocket/asterdex.ws.js:10-72 | a successful connect arms the 10 s connection timeout; a throwing one reconnects instead |
| AsterdexWs.AsterdexFeed.ConnectTimeout | services/websocket/asterdex.ws.js:23-28 | at the timeout an opening socket is closed and an open one is kept |
| AsterdexWs.AsterdexFeed.Open | services/websocket/asterdex.ws.js:30-34 | open clears the timeout and resets the attempts |
| AsterdexWs.AsterdexFeed.TimerFired | services/websocket/asterdex.ws.js:82-86 | one more attempt is counted, then a connect, which arms a new timeout |
| AsterdexWs.AsterdexFeed.OnMessage | services/websocket/asterdex.ws.js:36-58 | the in-place loop leaves the cache equal to the message's effect on the old cache |
| AsterdexWs.AsterdexFeed.GetData | services/websocket/asterdex.ws.js:89-91 | the stored entry for a symbol, or nothing |
| Quotes.OrElse | services/websocket/btcturk.ws.js:80-82 | `parseFloat(x) \|\| previous` keeps the previous value exactly when the parse gives NaN or 0 |
| Quotes.TopThree | services/websocket/btcturk.ws.js:89-101 | a side keeps at most its first three levels, all of them when fewer |
| BtcTurkWs.Side | services/websocket/btcturk.ws.js:89-101 | a side the message carries is replaced by exactly its first three levels (all of them when fewer), and a side it lacks is kept |
| BtcTurkWs.AfterMessage | services/websocket/btcturk.ws.js:72-113 | a USDTTRY ticker sets each price that parses to a non-zero number, keeps the others, and leaves the book alone. A USDTTRY order book replaces the sides it carries by their top three levels and takes each best price from its side's top level, if any. Both stamp the time; other messages change nothing |
| BtcTurkWs.ShallowPreserved | services/websocket/btcturk.ws.js:86-101 | every message keeps at most three levels per side |
| BtcTurkWs.Redelivery | services/websocket/btcturk.ws.js:72-113 | receiving the same message twice equals receiving it once at the later time |
| BtcTurkWs.BtcTurkFeed.constructor | services/websocket/btcturk.ws.js:9-21 | the record starts all zero with empty sides |
| BtcTurkWs.BtcTurkFeed.HandleMessage | services/websocket/btcturk.ws.js:72-113 | the field-by-field updates amount to one message's effect and keep the three-level bound |
| OkxTrWs.BookSide | services/websocket/okxtr.ws.js:100-118 | a present side is replaced by exactly its first three levels (all of them when fewer), and the best price moves to its top level when there is one; a missing side keeps both |
| OkxTrWs.AfterFrame | services/websocket/okxtr.ws.js:82-121 | only a non-pong USDT-TRY frame with data and arg changes the record. A ticker sets each price that parses to a non-zero number and keeps the others; a books5 frame updates each side it carries. Both stamp the time |
| OkxTrWs.AbsentSideKeepsBest | services/websocket/okxtr.ws.js:100-108 | a book message without bids leaves the bid levels and the best bid untouched |
| OkxTrWs.OkxTrFeed.constructor | services/websocket/okxtr.ws.js:8-21 | the record starts all zero with empty sides, no ping and no reconnect |
| OkxTrWs.OkxTrFeed.Open | services/websocket/okxtr.ws.js:28-80 | open resets the attempts, subscribes to the tickers and books5 channels and starts the ping |
| OkxTrWs.OkxTrFeed.PingTick | services/websocket/okxtr.ws.js:123-129 | a ping is sent exactly when the socket is open |
| OkxTrWs.OkxTrFeed.StopPing | services/websocket/okxtr.ws.js:131-136 | afterwards no ping runs |
| OkxTrWs.OkxTrFeed.Close | services/websocket/okxtr.ws.js:50-54 | a close stops the ping and leaves a reconnect pending with the backoff delay |
| OkxTrWs.OkxTrFeed.Disconnect | services/websocket/okxtr.ws.js:155-164 | no ping and no reconnect remain, and the socket starts closing |
| OkxTrWs.OkxTrFeed.OnMessage | services/websocket/okxtr.ws.js:82-121 | the field-by-field updates amount to one frame's effect on the record |
| Quotes.QuoteFrom | services/websocket/binancetr.ws.js:62-68 | every field is the parsed number, or 0 where the parse gives NaN, and the record is stamped with the arrival time |
| BinanceTrWs.AfterMessage | services/websocket/binancetr.ws.js:59-70 | only a USDTTRY 24hrTicker changes the record, and it replaces it whole |
| BinanceTrWs.ReplaceNotMerge | services/websocket/binancetr.ws.js:62-68 | an accepted message yields the same record whatever was stored before |
| BinanceTrWs.BinanceTrFeed.constructor | services/websocket/binancetr.ws.js:9-20 | the record starts all zero, with no ping and no reconnect |
| BinanceTrWs.BinanceTrFeed.Open | services/websocket/binancetr.ws.js:28-32 | open resets the attempts and starts the ping |
| BinanceTrWs.BinanceTrFeed.PingTick | services/websocket/binancetr.ws.js:72-78 | a ping is sent exactly when the socket is open |
| BinanceTrWs.BinanceTrFeed.StopPing | services/websocket/binancetr.ws.js:80-85 | afterwards no ping runs |
| BinanceTrWs.BinanceTrFeed.Close | services/websocket/binancetr.ws.js:47-51 | a close stops the ping and leaves a reconnect pending |
| BinanceTrWs.BinanceTrFeed.Disconnect | services/websocket/binancetr.ws.js:104-113 | no ping and no reconnect remain, and the socket starts closing |
| BinanceTrWs.BinanceTrFeed.HandleMessage | services/websocket/binancetr.ws.js:59-70 | the handler's effect is exactly one message's effect on the record |
| Paribu.AfterFetch | services/websocket/paribu.service.js:26-52 | a response with a USDT_TL entry replaces the record whole, each field being its parsed number or 0. A failed request or one without USDT_TL keeps the record |
| Paribu.ParibuPoller.constructor | services/websocket/paribu.service.js:8-16 | the record starts all zero with timestamp 0 and no poll |
| Paribu.ParibuPoller.Connect | services/websocket/paribu.service.js:18-24 | polling is on and the record is unchanged until a response arrives |
| Paribu.ParibuPoller.FetchTicker | services/websocket/paribu.service.js:26-52 | the handler's effect is exactly one poll's effect on the record |
| Paribu.ParibuPoller.Disconnect | services/websocket/paribu.service.js:58-63 | polling is off and the record is kept |
| HyperliquidWs.AfterMessage | services/websocket/hyperliquid.ws.js:41-63 | only an `allMids` message changes the cache |
| HyperliquidWs.MidEntry | services/websocket/hyperliquid.ws.js:47-61 | a symbol's entry is rebuilt from its last mid. Its rate is eight times the cached hourly percent and its next funding time is one hour after the rate's fetch time. A symbol with no cached rate gets rate 0 and time 3600000 |
| HyperliquidWs.UnnamedMidKept | services/websocket/hyperliquid.ws.js:47-61 | a symbol that no mid of an `allMids` message names keeps its entry, or stays absent |
| HyperliquidWs.AfterRates | services/websocket/hyperliquid.ws.js:65-91 | a failed or incomplete response leaves the rate table alone |
| HyperliquidWs.RatesUpToKeepOthers | services/websocket/hyperliquid.ws.js:77-85 | a name not visited with a context, up to any point of the loop, keeps its rate or stays absent |
| HyperliquidWs.RatesUpTo | services/websocket/hyperliquid.ws.js:77-85 | the loop over the universe only adds or overwrites entries: no name is removed, and every new name comes from the visited part of the universe |
| HyperliquidWs.RatesUpToStored | services/websocket/hyperliquid.ws.js:77-85 | up to any point of the loop, the last visited index with a context decides its name's rate: 100 times the funding, stamped with the fetch time |
| HyperliquidWs.RatesKeepOthers | services/websocket/hyperliquid.ws.js:77-85 | after a response, a name that no index with a context names keeps its rate or stays absent |
| HyperliquidWs.RateStored | services/websocket/hyperliquid.ws.js:77-85 | after a response, the last index with a context for a name sets its rate to 100 times the funding |
| HyperliquidWs.HyperliquidFeed.constructor | services/websocket/hyperliquid.ws.js:5-9 | a base feed with no rates and no refresh timer |
| HyperliquidWs.HyperliquidFeed.Open | services/websocket/hyperliquid.ws.js:11-39 | open resets the attempts, starts the ping and the one-minute rate refresh, and keeps the cache |
| HyperliquidWs.HyperliquidFeed.Cleanup | services/websocket/hyperliquid.ws.js:25-31 | the override stops both the ping and the rate refresh |
| HyperliquidWs.HyperliquidFeed.Close | services/websocket/base.ws.js:41-45 | a close stops both timers and schedules one reconnect, keeping the cache |
| HyperliquidWs.HyperliquidFeed.PingTick | services/websocket/hyperliquid.ws.js:33-39 | a ping is sent exactly when the socket is open |
| HyperliquidWs.HyperliquidFeed.OnMessage | services/websocket/hyperliquid.ws.js:41-63 | the in-place loop leaves the cache equal to the message's effect on the old cache |
| HyperliquidWs.HyperliquidFeed.UpdateFundingRates | services/websocket/hyperliquid.ws.js:65-91 | the in-place loop leaves the rate table equal to the response's effect on the old table |
| Metadata.BinanceWrite | services/metadata.service.js:33-39 | exactly the PERPETUAL contracts are stored, under their symbol, with their listed interval, or 8 hours when it is missing or 0 |
| Metadata.BinanceEntry | services/metadata.service.js:33-39 | the last PERPETUAL listing of a symbol decides its interval: the listed hours, or 8 when missing or 0 |
| Metadata.BinanceSkipsOthers | services/metadata.service.js:34 | a symbol with no PERPETUAL listing keeps its interval or stays absent |
| Metadata.BybitSkipsOthers | services/metadata.service.js:69-74 | a symbol the Bybit listing does not name keeps its interval or stays absent |
| Metadata.BybitEntry | services/metadata.service.js:69-74 | the last listing of a symbol stores its minutes divided by 60 (480 minutes gives 8 hours), or NaN |
| Metadata.BybitWrite | services/metadata.service.js:69-74 | every instrument writes its own symbol; the stored interval is NaN exactly when the minutes did not parse, and otherwise times 60 gives the minutes |
| Metadata.MetadataService.constructor | services/metadata.service.js:4-14 | all five venue tables start empty |
| Metadata.MetadataService.FetchBinanceMetadata | services/metadata.service.js:27-45 | a failed request keeps the table; otherwise the in-place loop leaves the table equal to the listing's effect on the old table |
| Metadata.MetadataService.FetchBybitMetadata | services/metadata.service.js:62-80 | a failed request keeps the table; otherwise the in-place loop leaves the table equal to the listing's effect on the old table |
| Metadata.MetadataService.Initialize | services/metadata.service.js:16-25 | each listing that arrived is loaded into its table, a failed fetch leaves its table as it was, and the OKX, Hyperliquid and Asterdex tables stay empty |
| Metadata.MetadataService.GetInterval | services/metadata.service.js:82-108 | Hyperliquid is always 1 hour and Asterdex always 8. For Binance and Bybit the stored interval is returned exactly when it is present and non-zero. OKX and unknown venues give null; a returned interval is never 0 |
| Metadata.GetIntervalIgnoresCase | services/metadata.service.js:84 | the venue name is matched regardless of letter case |
| Text.ToLower | services/metadata.service.js:84 | lower-casing keeps the length and lower-cases every letter |
| Text.ToLowerIdempotent | services/metadata.service.js:84 | lower-casing twice is the same as once |
| FundingCalculator.IntervalOf | services/funding-calculator.js:2-13 | Hyperliquid settles hourly; every other name, listed or not, settles every 8 hours |
| FundingCalculator.NextGridHour | services/funding-calculator.js:25 | the next funding hour is a multiple of 8, at most 24, and less than 8 hours away |
| FundingCalculator.DaySplit | services/funding-calculator.js:23-26 | a UTC instant splits into its day start, which is on the 8-hour grid, and an hour of the day in [0, 24) |
| FundingCalculator.NextFundingTimeAsWritten | services/funding-calculator.js:11-33 | the code exactly as written; its hourly branch agrees with the corrected function |
| FundingCalculator.NextFundingTime | services/funding-calculator.js:11-33 | hourly venues get the next whole hour, within one hour after now. Others get the first 00:00, 08:00 or 16:00 UTC at or after the start of the current hour, which is the current hour itself when that hour is on the grid |
| FundingCalculator.AsWrittenSkipsADay | services/funding-calculator.js:26-30 | through 16:59 UTC the code agrees with the intended time; from 17:00 on it answers exactly one day late, more than a day ahead of now |
| FundingCalculator.AsWrittenExample | services/funding-calculator.js:26-30 | at 1970-01-01 20:00 UTC the code gives 1970-01-03 00:00 where 1970-01-02 00:00 is meant |
| FundingCalculator.HoursUntilFunding | services/funding-calculator.js:36-40 | hourly venues are at most one hour from funding; the others less than 8 hours, and less than 1 hour past it when the current hour is on the grid |
| FundingCalculator.Ceil | services/funding-calculator.js:94-95 | `Math.ceil`: the least integer not below the argument |
| FundingCalculator.IntervalOrDefault | services/funding-calculator.js:48-49 | a missing or zero interval becomes 8; a usable one is kept; the result is never 0 |
| FundingCalculator.NextTimeOrNow | services/funding-calculator.js:52-53 | a missing or zero next funding time becomes now |
| FundingCalculator.HoursUntil | services/funding-calculator.js:56-57 | the hours until funding are never negative, 0 once funding is past, and otherwise the exact millisecond gap in hours |
| FundingCalculator.MinutesPart | services/funding-calculator.js:60-62 | the result is the whole minutes past the whole hour: in [0, 60), and the hour's start plus that many minutes is at most the time, with less than a minute to spare |
| FundingCalculator.Flags | services/funding-calculator.js:66-78 | a leg never both pays and receives, and does neither exactly when its rate is 0. A leg that pays positive rates pays exactly when the rate is positive and receives exactly when it is negative, and the other way round |
| FundingCalculator.CollectionsZeroIff | services/funding-calculator.js:90-96 | with positive intervals, the first period counts no collection exactly when both funding times are already past |
| FundingCalculator.CollectionsInFirstPeriod | services/funding-calculator.js:93-96 | the count is the smaller of the two legs' rounded-up interval counts over the first period, and is never negative for a non-negative period and positive intervals |
| FundingCalculator.LegOf | services/funding-calculator.js:44-130 | a leg carries its name and rate, the defaulted interval and next funding time, the non-negative hours until then split into hours and minutes, and the flags for its side |
| FundingCalculator.LegAmount | services/funding-calculator.js:81-82 | a leg's amount is the absolute rate in percent of the trade size, so never negative for a non-negative size |
| FundingCalculator.NetFundingRate | services/funding-calculator.js:85-87 | LONG_A_SHORT_B nets B's rate minus A's; any other strategy nets A minus B |
| FundingCalculator.PerCentScaling | services/funding-calculator.js:99-103 | applying a percent rate to a trade size k times is the rate times k times the size, over 100 |
| FundingCalculator.Annualised | services/funding-calculator.js:99-104 | 8760 hours divided by the longer interval gives settlements a year; APR is the net rate times that; annual funding is APR in percent of the trade size; the first period's funding is the net rate in percent of the size per collection |
| FundingCalculator.Assemble | services/funding-calculator.js:89-138 | the report keeps both legs and the net rate, and its first-period horizon is the later of the two legs' waits |
| FundingCalculator.CalculateDetailedFunding | services/funding-calculator.js:43-138 | each report leg carries its venue's name and rate, and the net rate is B minus A under LONG_A_SHORT_B and A minus B otherwise |
| FundingCalculator.ReportLegs | services/funding-calculator.js:43-130 | each leg of the report has its name, the defaulted interval and next funding time, the hours until then, split into whole hours and the whole minutes past them, and a non-negative amount |
| FundingCalculator.ReportFlags | services/funding-calculator.js:66-78 | under LONG_A_SHORT_B leg A pays positive rates and leg B receives them; under any other strategy the roles swap |
| FundingCalculator.ReportTotals | services/funding-calculator.js:85-132 | the report carries the strategy's net rate, the later of the two horizons (never negative), and the collection count over it |
| FundingCalculator.AnnualFigures | services/funding-calculator.js:99-136 | the report's per-year count, APR, annual funding and first-period funding scale as the annual figures promise, for any two legs |
| FundingCalculator.StrategiesMirror | services/funding-calculator.js:85-104 | swapping the strategy exactly negates the net rate, the APR, the annual funding and the first-period funding |
| FundingCalculator.AnnualisedNegates | services/funding-calculator.js:99-104 | negating the net rate negates every money figure and keeps the settlements per year |
| FundingCalculator.NetRateIsSignedFlows | services/funding-calculator.js:66-87 | the net rate is the sum of what each leg receives minus what it pays, as its flags say |
| FundingCalculator.DefaultTradeSize | services/funding-calculator.js:43-104 | at the default trade size of 100, annual funding equals the APR |
| CoinList.ToCoin | services/coin-list.js:5-15 | venue ids, name and symbol are copied. A missing or empty logo becomes the placeholder URL followed by the coin's symbol, a missing colour becomes black, and set values are kept |
| CoinList.Coins | services/coin-list.js:5-15 | one coin per record of the generated file, in file order |
| Text.BeforeFirst | scripts/fetch-common-coins.js:23-25 | the text before the first separator: a prefix without the separator, followed by the separator unless it is the whole string |
| CommonCoins.BinanceCandidates | scripts/fetch-common-coins.js:8-15 | exactly the trading USDT perpetuals become Binance candidates |
| CommonCoins.BinanceCandidatesConcat | scripts/fetch-common-coins.js:8-15 | the filter and map work listing by listing: the candidates of two lists joined are the two lists' candidates joined |
| CommonCoins.BinanceOrderKept | scripts/fetch-common-coins.js:8-15 | of two kept Binance listings, the earlier one's candidate comes first |
| CommonCoins.OkxCandidates | scripts/fetch-common-coins.js:18-29 | exactly the live USDT-settled swaps become OKX candidates, keyed by the instrument id up to its first dash |
| CommonCoins.OkxCandidatesConcat | scripts/fetch-common-coins.js:18-29 | the filter and map work listing by listing: the candidates of two lists joined are the two lists' candidates joined |
| CommonCoins.OkxOrderKept | scripts/fetch-common-coins.js:18-29 | of two kept OKX listings, the earlier one's candidate comes first |
| CommonCoins.FindFirst | scripts/fetch-common-coins.js:59-62 | the match is the first candidate with exactly that base, and nothing when no candidate has it |
| CommonCoins.Find | scripts/fetch-common-coins.js:59-62 | a found candidate is one of the list and has exactly the base asked for |
| CommonCoins.RowForShape | scripts/fetch-common-coins.js:53-75 | a Hyperliquid name yields a row exactly when both Binance and OKX list its base. The row carries their first matches, the name as name and symbol, the lower-cased logo URL and black |
| CommonCoins.FetchCommonCoins | scripts/fetch-common-coins.js:3-75 | the push loop over the Hyperliquid universe yields exactly the rows of the intersection, in universe order |
| CommonCoins.Common | scripts/fetch-common-coins.js:53-75 | the common-coins list has at most one row per Hyperliquid name |
| CommonCoins.CommonMembership | scripts/fetch-common-coins.js:53-75 | at most one row per Hyperliquid name, and a row appears exactly when some name yields it |
| CommonCoins.RowsComeFromUniverse | scripts/fetch-common-coins.js:53-75 | every emitted row names a Hyperliquid coin and pairs it with both venues' first matching symbols |
| Gather.KeptBounded | scripts/fetch-common-coins.js:53-75 | a loop that pushes at most once per element yields at most one value per element |
| Gather.KeptMembership | services/arbitrage.service.js:30-90 | a value is pushed exactly when some element pushes it |
| Gather.KeptNothing | services/arbitrage.service.js:30-90 | when no element pushes anything, the result is empty |
| Arbitrage.NewService | services/arbitrage.service.js:10-23 | the scorer keeps its venue slugs and names, and every maker and taker fee is zero |
| Arbitrage.AnalysisMeaning | services/arbitrage.service.js:98-154 | the scorer goes long A exactly when B's rate is higher. The income is the size of the rate gap. Entry costs the cross-venue spread at the long leg's ask plus both taker fees, and exit costs the same again. The net 8-hour profit is income minus both, its annual figure is 1095 times that, and a profit above 0.001 is an opportunity |
| Arbitrage.AnalyzeArbitrage | services/arbitrage.service.js:98-154 | it goes long A exactly when B's rate is higher and reports the signed rate gap; the income is never negative; exit costs what entry costs; and a record is an opportunity exactly when its net profit exceeds 0.001 |
| Arbitrage.SwapSymmetry | services/arbitrage.service.js:98-154 | swapping the venues when their rates differ flips the strategy and keeps income, cost, profit and verdict |
| Arbitrage.EqualRatesShortA | services/arbitrage.service.js:112-125 | equal rates always choose SHORT_A_LONG_B, in either venue order, with zero income |
| Arbitrage.MarkOnlySpread | services/arbitrage.service.js:55-60 | with marks as bid and ask, the entry cost is the relative mark gap at the long leg plus fees; equal marks and zero fees make the profit the bare rate gap |
| Arbitrage.GetExchangeLogo | services/arbitrage.service.js:156-163 | Binance, OKX and Hyperliquid have fixed logo paths, and any other slug has the empty string |
| Arbitrage.VenueSymbol | services/arbitrage.service.js:31-32 | a coin's symbol on a venue is its property of that name, and missing for a slug the table has no key for |
| Arbitrage.TopCoinsTable | services/arbitrage.service.js:166-341 | the coin table has nineteen coins, each listed as `<symbol>USDT` on Binance, `<symbol>-USDT-SWAP` on OKX and its bare symbol on Hyperliquid |
| Arbitrage.RecordShape | services/arbitrage.service.js:30-87 | a coin yields a record exactly when both caches hold its venue symbols, and the record carries both entries and the rate gap between them |
| Arbitrage.Record | services/arbitrage.service.js:30-87 | one coin's pass of the loop yields a record exactly when both caches hold its venue symbols |
| Arbitrage.CollectedMembership | services/arbitrage.service.js:30-87 | at most one record per table coin, and a record is pushed exactly when some coin yields it |
| Arbitrage.Collected | services/arbitrage.service.js:30-87 | the loop pushes at most one record per table coin |
| Arbitrage.UnlistedSlugYieldsNothing | services/arbitrage.service.js:166-341 | a pair with a Bybit or Asterdex leg finds no symbol in the coin table and so pushes nothing |
| Arbitrage.Insert | services/arbitrage.service.js:90 | inserting into a list ordered by profit, highest first, keeps it ordered and adds one element |
| Arbitrage.InsertAdds | services/arbitrage.service.js:90 | insertion adds exactly the new record and loses nothing |
| Arbitrage.SortByProfit | services/arbitrage.service.js:90 | the sorted list is a permutation of the records, ordered by net profit, highest first |
| Arbitrage.ScoreCoins | services/arbitrage.service.js:27-90 | when every coin both caches hold has a non-zero mark on its long leg, the push loop and the sort return a permutation of the pushed records, highest profit first |
| Arbitrage.GetArbitrageOpportunities | services/arbitrage.service.js:25-96 | for the fixed top-coin table, the result is the records of the coins both caches hold, highest profit first |
| Cache.Lookup | server.js:229-233 | reading under a missing or absent key yields nothing; otherwise it yields the stored entry |
| Server.Rank | server.js:182-196 | the venues have a fixed order: Binance TR, BTCTurk, OKX TR, Paribu |
| Server.RankOfVenue | server.js:182-196 | the four venue names are distinct |
| Server.IncludedOrder | server.js:180-196 | the pushed rows come in strictly increasing venue order, at most one per venue |
| Server.IncludedMembership | server.js:178-196 | exactly the valid venues are pushed: stamped, with a positive bid or ask |
| Server.TryRowsShape | server.js:171-209 | the TRY table always has one to four rows, in venue order, with no venue twice |
| Server.TryRows | server.js:171-209 | `getTRYData` returns between one and four rows |
| Server.PlaceholdersRanked | server.js:199-205 | the placeholder rows follow the venue order |
| Server.TryRowsPlaceholders | server.js:198-206 | the four zero rows are returned exactly when no venue is valid |
| Server.TryRowsMembership | server.js:178-196 | when some venue is valid, a venue's row is present exactly when its record is valid |
| Server.GetTRYData | server.js:171-209 | the four guarded pushes and the placeholder fallback produce exactly the TRY table |
| Server.AllExchangeData | server.js:225-246 | one row per coin in order, carrying the coin's symbol, name and logo. A venue's cell is null exactly when the coin has no id there or the cache lacks it, and otherwise holds that entry's mark price and rate |
| Server.Top10 | server.js:143 | a pair's list is cut to its first ten records |
| Server.TopTenKeepsBest | server.js:141-143 | cutting a profit-ordered list to ten keeps it ordered, keeps only its own records, and leaves out nothing more profitable than a kept record |
| Server.PairSlice | server.js:140-144 | a pair's broadcast list has the top ten scored records in profit order, and nothing left out beats a kept one |

## Left out

- Sockets, timers, HTTP requests, the express server and the broadcast fan-out (server.js:22-169, 249-276) are I/O. A socket is a `SocketState`, a timer is a flag or a counter, a response is a parameter, and each event is one atomic method call.
- The REST clients `services/binance.service.js`, `services/okx.service.js` and `services/hyperliquid.service.js` are network clients that the server does not wire in; they are not part of this model.
- `getUSDCData` (server.js:212-223) and the logging throttle (services/arbitrage.service.js:41-44) draw on `Math.random`, and all `console` output is logging; neither is modelled.
- `test-api.js` and `debug-arbitrage.js` are command-line scripts and are not part of this model.
- `fetchOkxMetadata` (services/metadata.service.js:47-60) only logs; the model records its one effect, that the OKX table stays empty (`Metadata.MetadataService.Valid`).
- server.js:113 builds each scorer from two objects, while the constructor at services/arbitrage.service.js:10 takes six arguments. server.js:36 and 226 call a `getCoinList` that no file defines. The model follows the service file: `Arbitrage.NewService` takes the slugs and names, the two venue caches are parameters, and so is the coin list of `Server.AllExchangeData`.
- Arbitrage.AnalysisMeaning: IEEE-754 rounding, NaN and Infinity are not modelled. The scorer requires a non-zero divisor for the spread of the branch taken (`SpreadDefined`), where JavaScript would yield Infinity or NaN. The scoring loop asks this only of the coins it scores (`Scorable`, `TableScorable`): for each table coin both caches hold, the mark of the long leg is non-zero. Zero marks elsewhere in the caches, or on the short leg, are allowed.
- Arbitrage.GetArbitrageOpportunities: the `try`/`catch` that returns `[]` is not modelled; where every scored coin has a non-zero long-leg mark, nothing in the loop throws.
- Arbitrage.GetArbitrageOpportunities: the scorer reads whole `Snapshot` entries, so a pair fed by the OKX feed's partial entries (fields still undefined) is not covered.
- Arbitrage.SortByProfit: the contract states a permutation ordered by profit but not the stability of `Array.prototype.sort` (the insertion sort keeps records of equal profit in their pushed order, which no lemma states).
- Arbitrage.Record: a coin table without the key named by a slug gives `undefined`, and `getData(undefined)` misses. Both are modelled as an absent key (`VenueSymbol`, `Cache.Lookup`). An adapter entry stored under the literal key "undefined" is not modelled.
- Arbitrage.UnlistedSlugYieldsNothing: the coin table has no `bybit` or `asterdex` key, so every pair with a Bybit or Asterdex leg is always empty.
- FundingCalculator.NextFundingTimeAsWritten: the hourly branch uses local time (`setMinutes`, `setHours`); the model assumes a zone offset of whole hours, which makes it the next UTC hour. Daylight-saving jumps are not modelled.
- FundingCalculator.HoursUntilFunding is stated on the corrected `NextFundingTime`; over the as-written version it would be 24 hours more from 17:00 UTC on (see Findings).
- FundingCalculator.CalculateDetailedFunding returns `nextFundingTime` as a millisecond count, where the source returns a `Date` object.
- FundingCalculator.Assemble: the modelled report also carries `collectionsInFirstPeriod`, which the JavaScript function computes but does not return; it is kept so that the totals lemma can state the first-period figure.
- BaseWs.BaseSocket.Connect: an old socket's handlers that fire after a new socket has replaced it are not modelled; the model has one current socket.
- The base message handler's `try`/`catch` (services/websocket/base.ws.js:33-39) is modelled by parse failures being a payload variant (`Unparseable`) that changes nothing.
- AsterdexWs.AsterdexFeed.constructor: `reconnectAttempts` starts undefined and `|| 0` reads it as 0; the model starts the counter at 0.
- The 10 s connect timeout of an earlier `connect()` that was never cleared is not modelled: only the latest timeout is tracked (`AsterdexWs.AsterdexFeed.timeoutPending`).
- Metadata.BybitEntry: `parseInt` of a fractional or non-numeric text is not modelled; the listing supplies the parsed minutes.
- Text.ToLower: only ASCII letters are lower-cased, where JavaScript's `toLowerCase` follows Unicode. Its users, `Metadata.MetadataService.GetInterval` and `CommonCoins.LogoUrl`, see only ASCII venue names and base assets.
- The code computes no common-horizon (LCM) funding projection, no data freshness window and no price-ratio check, so the model has none either.

## Findings

| source | as written | input that shows it | evidently intended | confidence | as-written member | corrected member |
|---|---|---|---|---|---|---|
| services/funding-calculator.js:26-30 | for UTC hours 17 to 23, `setUTCHours(24)` already moves the date to the next day, and `setUTCDate(getUTCDate() + 1)` then adds another day | now = 72000000 (1970-01-01 20:00 UTC): returns 172800000 (1970-01-03 00:00 UTC) | the next 8-hour grid point, 86400000 (1970-01-02 00:00 UTC) | not executed | FundingCalculator.NextFundingTimeAsWritten (`AsWrittenSkipsADay`, `AsWrittenExample`) | FundingCalculator.NextFundingTime |
