# Exchange data acquisition and caching, in Dafny

This project models the core of ASPBtcProject. That system is a set of services that fetch spot prices and order books for a trading symbol from two exchanges, Binance and Bybit. It derives market statistics from them, caches every result in Redis under namespaced keys, and compares the two exchanges.

What is modelled:

- **Cache wrapper** (`Redis`, RedisServices.cs). It is a class over a key/value map. Errors are swallowed: a failed read is an absent value, and a failed write or remove is ignored. The `online` flag stands for the store being reachable.
- **Cache-aside fetchers** (`CacheAside`, `Binance`, `Bybit`). These are the `GetPriceAsync`, `GetOrderBookAsync` and `GetMarketStatsAsync` methods of both exchange services.
  - Each is a method of a `BinanceServices` or `BybitServices` class. Each method is proved equal to a pure step function: result, new cache contents, and the requests sent to the exchange, which are kept in a ghost log.
  - The exchange is the decoded reply a request would receive, passed in as a parameter.
  - The lemmas are about the step functions: hits, soft zeros, thrown failures, limit checks, composition of the market-stats call, invalidation, and key disjointness.
- **Statistics calculator** (`Stats`, `Binance.CalculateMarketStats`, `Bybit.CalculateMarketStats`). It parses levels, stably sorts them, keeps the top five of each side, and computes best prices and volumes. `BinanceModels` holds the computed `Spread` and `SpreadPercentage`.
- **Retry wrapper** (`Retry`). This is the `for` loop of `GetMarketStatsWithRetryAsync`, over a sequence of attempt outcomes, with a ghost log of back-off delays. The two services differ only in what they do when `maxRetries <= 0`.
- **Comparison** (`Comparison`). This covers the success gate, the difference, the percentage with its divisor guard, and the recommendation of `ComparePricesAsync` and `CompareMarketStatsAsync`.

C# `decimal` is modelled as `real`. `decimal.Parse` and `decimal.TryParse` are abstract partial functions `string -> Option<real>`. `ToUpper` is ASCII upper-casing. An exception is an `Err` carrying an `ApiError`: the exchange, the operation, the symbol and the cause, where a rethrown service exception is the cause `Inner`.

The model follows the code as written; in particular:

- A price that cannot be read is often returned as `0` rather than as an error.
- Binance reads the ticker through `dynamic`, so a missing `price` property throws. A JSON null price reads as empty text; since `TryParse` rejects empty text, it gives `0`.
- Bybit dereferences a null `result` or `list` of a ticker, which throws, while a non-zero `retCode` gives `0`.
- Bybit's `MarketStats` has a stored `Spread` that is never assigned and no `Symbol` property, so its spread is always 0 and it keeps no symbol.
- `OrderBookData.IsValid` is called but its body is not among the files modelled. A book is taken to be valid when both sides are non-empty.
- Bybit's `OrderBookEntry.Volume` is not among those files either. It is taken to be price × quantity, as in Binance's calculator.

## Model

| member | source | states |
|---|---|---|
| Text.ToUpperEqualIff | BinanceService/Services/BinanceServices.cs:52 | two symbols upper-case to the same text exactly when they are equal ignoring ASCII case |
| Text.NatToStringRoundTrip | BinanceService/Services/BinanceServices.cs:101 | the decimal rendering of a non-negative limit reads back as that limit |
| Text.IntToStringRoundTrip | BinanceService/Services/BinanceServices.cs:101 | the rendering of any integer limit, negative ones included, reads back as that integer |
| Text.IntToStringInjective | BinanceService/Services/BinanceServices.cs:101 | two limits render to the same text exactly when they are equal |
| Text.LastColonSplit | BinanceService/Services/BinanceServices.cs:101 | `x + ":" + d` with no colon in `d` determines both `x` and `d` |
| Redis.RedisService.Get | BinanceService/Services/RedisServices.cs:17-32 | the value is returned only when the store answers and holds non-empty text under the key that reads as the requested type; otherwise nothing is returned |
| Redis.RedisService.Set | BinanceService/Services/RedisServices.cs:34-53 | the store gains the value with its expiry under the key and nothing else changes; when the store is unreachable or the expiry is not positive, nothing changes |
| Redis.RedisService.Remove | BinanceService/Services/RedisServices.cs:55-66 | the key is gone and nothing else changes; when the store is unreachable, nothing changes |
| Redis.RedisService.Exists | BinanceService/Services/RedisServices.cs:68-80 | true exactly when the store answers and some text, possibly empty, is stored under the key |
| Redis.RedisService.Expire | BinanceService/Services/RedisServices.cs:41-44 | only an entry written with an absolute expiry can be evicted |
| Redis.GetAfterSet | BinanceService/Services/RedisServices.cs:34-46 | a value written with a positive expiry is read back unchanged |
| Redis.OnlyTheGivenKey | BinanceService/Services/RedisServices.cs:46-59 | writes and removes leave every other key's entry as it was |
| Redis.OutageIsHarmless | BinanceService/Services/RedisServices.cs:17-80 | an unreachable store reads as absent, reports nothing present, and is left unchanged by writes and removes |
| Redis.EmptyStringExistsButIsAbsent | BinanceService/Services/RedisServices.cs:21-73 | a stored empty string exists but reads as absent |
| Redis.GetAfterRemove | BinanceService/Services/RedisServices.cs:55-66 | after a remove the key neither reads nor exists |
| Redis.SetRecordsExpiry | BinanceService/Services/RedisServices.cs:39-46 | a write records the expiry it was given, or none |
| Redis.PutsCommute | BinanceService/Services/RedisServices.cs:34-46 | writes under two different keys give the same store in either order |
| Stats.ParseLevels | BinanceService/Services/BinanceServices.cs:188-193 | a side parses exactly when every level has two parsable strings; the entries keep the levels' order and number |
| Stats.SortBy | BinanceService/Services/BinanceServices.cs:194 | the sorted side is ordered in the requested direction and is a permutation of the input |
| Stats.SortByIsStable | BinanceService/Services/BinanceServices.cs:194-204 | sorting keeps the entries of each price in their input order, as LINQ's OrderBy does |
| Stats.TopKeepsFirstAtEachPrice | BinanceService/Services/BinanceServices.cs:194-205 | at every price, the entries kept in the top five are the first ones of that price in the input |
| Stats.Top | BinanceService/Services/BinanceServices.cs:194-195 | min(5, n) entries of the input, ordered, and every entry left out comes after every entry kept |
| Stats.Summarize | BinanceService/Services/BinanceServices.cs:188-218 | fails exactly when a level of either side is malformed; otherwise at most five ordered bids and asks drawn from the parsed sides, the head price of each (0 when empty), and the volume of the kept entries |
| Stats.SummaryTopFive | BinanceService/Services/BinanceServices.cs:194-205 | the kept bids and asks are each the top of their parsed side: ordered, drawn from it, and every entry left out ranks after every entry kept |
| Stats.SummaryBestIsExtreme | BinanceService/Services/BinanceServices.cs:208-209 | the best bid is the highest bid price of the whole side and the best ask the lowest ask price; an empty side gives 0 |
| Stats.BestIsExtreme | BinanceService/Services/BinanceServices.cs:194-209 | the head of a sorted non-empty side is an entry of that side at least as good as every entry |
| BinanceModels.SpreadZeroUnlessBothSides | BinanceService/Models/MarketStats.cs:11-12 | when either best price is not positive, both the spread and the spread percentage are 0 |
| BinanceModels.SpreadNotClamped | BinanceService/Models/MarketStats.cs:11 | with both best prices positive the spread is ask minus bid, and it is negative for a crossed book |
| BinanceModels.SpreadPercentageGuard | BinanceService/Models/MarketStats.cs:12 | the percentage is spread relative to a positive current price, else 0; a zero spread gives 0 |
| CacheAside.HitCallsNothing | BinanceService/Services/BinanceServices.cs:55-60 | a cache hit returns the cached value, sends no request and writes nothing |
| CacheAside.OnlySuccessIsCached | BinanceService/Services/BinanceServices.cs:72-88 | the store changes only when a value was read successfully, and then only under the fetcher's own key, with the configured expiry |
| CacheAside.FailureIsNeverAValue | BinanceService/Services/BinanceServices.cs:92-96 | a call fails exactly when it missed and the miss path threw, and then the error wraps that cause |
| CacheAside.SecondCallHits | BinanceService/Services/BinanceServices.cs:52-90 | a value just fetched and cached is what the next call returns, with no request, whatever the exchange would answer |
| CacheAside.OutageBypassesCache | BinanceService/Services/RedisServices.cs:27-52 | with the cache unreachable every call goes to the exchange and the store is untouched |
| Retry.Backoff | BinanceService/Services/BinanceServices.cs:237 | the delay after failed attempt k is 2^k seconds |
| Retry.BackoffDoubles | BinanceService/Services/BinanceServices.cs:237 | every delay is at least 2 s and each one doubles the previous |
| Retry.StopFromIsFirstSuccess | BinanceService/Services/BinanceServices.cs:226-235 | the loop stops at the first successful attempt, or at the last allowed one |
| Retry.AttemptsCharacterised | BinanceService/Services/BinanceServices.cs:226-240 | no attempt is made when maxRetries <= 0; otherwise the number of attempts is between 1 and maxRetries, every earlier attempt failed, and stopping early means success |
| Retry.SucceedsOnAttempt | BinanceService/Services/BinanceServices.cs:226-230 | when attempts 1..n-1 fail and attempt n succeeds, exactly n attempts are made |
| Retry.AlwaysFails | BinanceService/Services/BinanceServices.cs:226-235 | when every attempt fails, exactly maxRetries attempts are made |
| Retry.WithRetry | BinanceService/Services/BinanceServices.cs:224-241 | the loop makes the characterised number of attempts, returns the last attempt's outcome (success, or the rethrown failure) or the fallback when none is made, and delays 2^k s after each failed attempt k it retries |
| Binance.KeysIgnoreCase | BinanceService/Services/BinanceServices.cs:52 | price and market-stats keys of two symbols are equal exactly when the symbols are equal ignoring case |
| Binance.OrderBookKeyIdentifies | BinanceService/Services/BinanceServices.cs:101 | two order-book keys are equal exactly when the symbols are equal ignoring case and the limits are equal |
| Binance.KeyKindsDisjoint | BinanceService/Services/BinanceServices.cs:25-27 | no price key is an order-book or market-stats key, and no order-book key is a market-stats key |
| Binance.PriceReplyCases | BinanceService/Services/BinanceServices.cs:66-82 | a price call throws exactly on a transport failure, an error status, malformed JSON or a missing price; it gives an uncached 0 exactly on a null document or an unparsable price; otherwise it gives the parsed price |
| Binance.NullPriceIsSoftZero | BinanceService/Services/BinanceServices.cs:78-82 | a JSON null price, read as empty text that the parser rejects, gives the uncached 0 |
| Binance.LimitCheckedAfterLookup | BinanceService/Services/BinanceServices.cs:101-117 | a cached book is returned whatever the limit; on a miss, a limit outside 5..1000 fails before any request and leaves the cache alone; an accepted limit sends exactly one depth request |
| Binance.OrderBookReplyCases | BinanceService/Services/BinanceServices.cs:119-130 | a book reply is accepted exactly when the request succeeded, the body is a JSON document and the book is valid, and then the accepted book is the document; every other reply throws, a null or invalid book with "invalid order book" |
| Binance.OrderBookMissOutcome | BinanceService/Services/BinanceServices.cs:99-144 | on a miss with an accepted limit and a success status, exactly one request is sent; a valid book is returned, written under its order-book key with the configured expiry and read back unchanged; an invalid one fails with "invalid order book" and leaves the cache as it was |
| Binance.CalculateMarketStats | BinanceService/Services/BinanceServices.cs:186-222 | fails exactly when a level is malformed; otherwise it carries the symbol and price, at most five bids in descending and asks in ascending order drawn from the parsed book, the head prices, and the top-five volumes |
| Binance.CalculatedSpread | BinanceService/Services/BinanceServices.cs:208-209 | calculated statistics have no spread when a side is empty; the best bid and best ask are the extreme prices of the whole book |
| Binance.CalculatedTopFive | BinanceService/Services/BinanceServices.cs:194-205 | the calculated bids and asks are the top five of their parsed sides: every level left out ranks after every level kept |
| Binance.PriceAndBookCommute | BinanceService/Services/BinanceServices.cs:162-168 | the two concurrent fetches of a market-stats call give the same results and the same cache in either order |
| Binance.MarketStatsHitCallsNothing | BinanceService/Services/BinanceServices.cs:148-156 | a market-stats hit returns the cached statistics, sends no request and leaves the cache as it was |
| Binance.MarketStatsFailureOrder | BinanceService/Services/BinanceServices.cs:158-183 | a market-stats miss fails exactly when the price fetch, the book fetch at limit 30 or the calculation fails, reporting the price failure first; its requests are the price fetch's followed by the book fetch's |
| Binance.MarketStatsComposes | BinanceService/Services/BinanceServices.cs:158-183 | on a miss where both fetches succeed, the statistics are those calculated from the fetched price and the fetched book at limit 30, carry that price and the symbol, are written under the market-stats key after both fetches' writes and read back unchanged; a malformed level fails without writing |
| Binance.FailedStatsAreNotCached | BinanceService/Services/BinanceServices.cs:170-183 | a failed market-stats call leaves the statistics entry as it was |
| Binance.SoftPriceSurvivesInStats | BinanceService/Services/BinanceServices.cs:162-175 | a soft 0 price is not cached, but the statistics built on it have price 0, are cached, and are returned by the next call without a request |
| Binance.SoftPriceIsUnhealthy | BinanceService/Program.cs:72-74 | on a miss, a soft 0 price makes the health probe unhealthy, and a healthy probe means the price was read and parsed |
| Binance.BinanceServices.GetPrice | BinanceService/Services/BinanceServices.cs:50-97 | result, new cache contents and requests sent are those of the price step |
| Binance.BinanceServices.GetOrderBook | BinanceService/Services/BinanceServices.cs:99-144 | result, new cache contents and requests sent are those of the order-book step, whose miss outcomes `Binance.OrderBookMissOutcome` and `Binance.OrderBookReplyCases` give |
| Binance.BinanceServices.GetMarketStats | BinanceService/Services/BinanceServices.cs:146-184 | result, new cache contents and requests sent are those of the market-stats step |
| Binance.BinanceServices.GetMarketStatsWithRetry | BinanceService/Services/BinanceServices.cs:224-241 | with maxRetries <= 0, no call and an empty MarketStats; otherwise between 1 and maxRetries calls, ending with the last call's outcome, with 2^k s back-off |
| Bybit.KeysIgnoreCase | BybitService/Services/BybitServices.cs:107 | Bybit keys of two symbols (and limits) are equal exactly when the symbols are equal ignoring case (and the limits are equal) |
| Bybit.KeyKindsDisjoint | BybitService/Services/BybitServices.cs:24-26 | the three kinds of Bybit key never collide |
| Bybit.ExchangesDoNotShareKeys | BybitService/Services/BybitServices.cs:24-26 | no Bybit key is a Binance key, so both services can share one cache |
| Bybit.TickerReplyCases | BybitService/Services/BybitServices.cs:64-88 | a price call throws exactly on a transport, status or JSON failure, or a null `result`, `list` or first item under retCode 0; any other failure is an uncached 0; a price is returned exactly when the first item's `lastPrice` parses, and it is that parsed value |
| Bybit.ParsedPriceIsCached | BybitService/Services/BybitServices.cs:83-96 | on a miss, a successful reply with retCode 0 whose first ticker has a parsable last price returns that price after one request, writes it under the price key with the configured expiry, and reads it back |
| Bybit.RejectionIsSoftForPriceHardForBook | BybitService/Services/BybitServices.cs:71-136 | a non-zero retCode gives price 0 for a ticker but throws for an order book |
| Bybit.MissingSideInvalidatesBook | BybitService/Services/BybitServices.cs:138-154 | a null side is read as empty and so rejected; a book is accepted exactly when both sides are present and non-empty |
| Bybit.OrderBookReplyCases | BybitService/Services/BybitServices.cs:125-154 | a book reply never gives a soft value; a transport failure throws its cause, a null body or non-zero retCode throws as rejected, a null `result` throws "invalid order book"; it is accepted exactly when both sides are present and non-empty, and the accepted book has the reply's bids as bids and asks as asks |
| Bybit.OrderBookMissOutcome | BybitService/Services/BybitServices.cs:105-169 | on a miss with an accepted limit, exactly one request is sent; an accepted book is returned, written under its order-book key with the configured expiry and read back unchanged; a rejected one fails with its cause and leaves the cache as it was |
| Bybit.LimitCheckedAfterLookup | BybitService/Services/BybitServices.cs:107-123 | a cached book is returned whatever the limit; on a miss, a limit outside 1..200 fails before any request and leaves the cache alone |
| Bybit.CalculateMarketStats | BybitService/Services/BybitServices.cs:211-247 | the same top-five, best-price and volume rules as Binance's, with the stored spread 0 |
| Bybit.CalculatedTopFive | BybitService/Services/BybitServices.cs:219-230 | the calculated bids and asks are the top five of their parsed sides: every level left out ranks after every level kept |
| Bybit.MarketStatsHitCallsNothing | BybitService/Services/BybitServices.cs:173-181 | a market-stats hit returns the cached statistics, sends no request and leaves the cache as it was |
| Bybit.MarketStatsFailureOrder | BybitService/Services/BybitServices.cs:183-208 | a market-stats miss fails exactly when the price fetch, the book fetch at limit 30 or the calculation fails, reporting the price failure first; its requests are the price fetch's followed by the book fetch's |
| Bybit.MarketStatsComposes | BybitService/Services/BybitServices.cs:183-208 | on a miss where both fetches succeed, the statistics are those calculated from the fetched price and the fetched book at limit 30, carry that price, are written under the market-stats key after both fetches' writes and read back unchanged; a malformed level fails without writing |
| Bybit.SoftPriceSurvivesInStats | BybitService/Services/BybitServices.cs:187-200 | a soft 0 price is not cached, but the statistics built on it have price 0, are cached, and are returned by the next call without a request |
| Bybit.StoredSpreadIsZero | BybitService/Services/BybitServices.cs:236-246 | every market-stats result and every statistics record in the cache has spread 0 |
| Bybit.InvalidationForcesRefetch | BybitService/Services/BybitServices.cs:270-284 | after invalidation the next price call goes to the exchange, the statistics and depth-30 entries read as absent, and every other key is unchanged |
| Bybit.InvalidationKeepsOtherLimits | BybitService/Services/BybitServices.cs:274 | the symbol's order books at limits other than 30 survive invalidation |
| Bybit.BybitServices.GetPrice | BybitService/Services/BybitServices.cs:48-103 | result, new cache contents and requests sent are those of the price step, whose outcomes `Bybit.TickerReplyCases` and `Bybit.ParsedPriceIsCached` give |
| Bybit.BybitServices.GetOrderBook | BybitService/Services/BybitServices.cs:105-169 | result, new cache contents and requests sent are those of the order-book step, whose miss outcomes `Bybit.OrderBookMissOutcome` and `Bybit.OrderBookReplyCases` give |
| Bybit.BybitServices.GetMarketStats | BybitService/Services/BybitServices.cs:171-209 | result, new cache contents and requests sent are those of the market-stats step |
| Bybit.BybitServices.GetMarketStatsWithRetry | BybitService/Services/BybitServices.cs:249-267 | with maxRetries <= 0, no call and an "all attempts failed" error; otherwise between 1 and maxRetries calls, ending with the last call's outcome, with 2^k s back-off |
| Bybit.BybitServices.InvalidateCache | BybitService/Services/BybitServices.cs:270-284 | exactly the price, depth-30 order-book and market-stats entries of the upper-cased symbol are removed |
| Comparison.Envelopes | ComparisonService/Services/ComparisonServices.cs:36-47 | both data values pass exactly when both services answered with a successful envelope; a Binance transport failure is reported before anything from Bybit |
| Comparison.ComparePrices | ComparisonService/Services/ComparisonServices.cs:23-70 | a result exists exactly when the gate passes; it echoes both prices and carries empty statistics; otherwise the gate's error is rethrown |
| Comparison.CompareMarketStats | ComparisonService/Services/ComparisonServices.cs:72-121 | a result exists exactly when the gate passes and both statistics are present; it takes the prices from the statistics and carries both unchanged |
| Comparison.DifferenceAndPercentage | ComparisonService/Services/ComparisonServices.cs:52-53 | the difference is Bybit's price minus Binance's; the percentage is relative to Binance's price, or the difference times 100 when that price is 0 |
| Comparison.RecommendationRule | ComparisonService/Services/ComparisonServices.cs:52-61 | "Bybit" exactly when the percentage is positive, else "Binance"; for a positive Binance price, exactly when Bybit's is higher |
| Comparison.EqualPricesRecommendBinance | ComparisonService/Services/ComparisonServices.cs:61 | equal prices give no difference and recommend Binance |
| Comparison.SwapFlipsRecommendation | ComparisonService/Services/ComparisonServices.cs:52-61 | for two positive, different prices, swapping the exchanges swaps the recommendation, so the dearer exchange is recommended either way |
| Comparison.ExamplePriceComparison | ComparisonService/Services/ComparisonServices.cs:49-63 | 100.00 against 101.50 gives 1.50, 1.5 %, "Bybit" |
| Comparison.ExampleZeroBinancePrice | ComparisonService/Services/ComparisonServices.cs:53 | 0 against 5 gives 500 % |
| Comparison.UnsuccessfulEnvelopeFails | ComparisonService/Services/ComparisonServices.cs:44-47 | an unsuccessful envelope from either service fails the comparison |
| Comparison.ComparedSpreads | ComparisonService/Services/ComparisonServices.cs:98-112 | for Bybit statistics as Bybit's calculator produces them, compared statistics carry Bybit's spread as 0, and Binance's as its `Spread`: best ask minus best bid when both are positive, else 0 |

## Left out

- HTTP and JSON: URLs, headers, timeouts and Newtonsoft (de)serialisation are not modelled. Replies are decoded datatypes: no answer, or a status with a body that is malformed, null or a document. Binance's `dynamic` ticker is reduced to whether the `price` property is present, and its text.
- Number parsing: `decimal.Parse` and `decimal.TryParse` with the invariant culture are abstract functions. The number grammar is not modelled.
- Decimal limits: `real` has no 28-digit rounding and no overflow exception. `Math.Pow` returns a double; the back-off is the integer 2^k.
- Time: `Task.Delay` is a ghost list of delays. Expiry by the clock is the `Redis.RedisService.Expire` method, which the environment may call at any time. Timestamps (`DateTime.UtcNow`) are omitted from every record.
- Concurrency: each `Task.WhenAll` pair runs in sequence, first task first, so the exception reported is the first task's. `Binance.PriceAndBookCommute` shows that the order does not change the cache.
- Cache faults: one `online` flag per store stands for every Redis exception. A fault between the read and the write of one call is not modelled, and a deserialisation failure is a `decode` that returns None.
- Binance.BinanceServices.GetMarketStatsWithRetry: the outcomes of its `GetMarketStatsAsync` calls are a given sequence. The contract does not follow the cache effects of those calls. The same holds for Bybit.BybitServices.GetMarketStatsWithRetry.
- Binance.BinanceServices.GetMarketStatsWithRetry: the back-off before attempt k + 1 is 2^k s with no upper bound. `Task.Delay` rejects a delay above 4294967294 ms (Int32.MaxValue ms before .NET 6), so in the source a failed attempt 23 (22 before .NET 6) that is not the last throws ArgumentOutOfRangeException from the catch block instead of retrying. The model's "between 1 and maxRetries calls, ending with the last call's outcome" holds in the source only for maxRetries of at most 23 (22).
- Bybit.BybitServices.GetMarketStatsWithRetry: the same unbounded back-off, with the same ArgumentOutOfRangeException from a failed attempt 23 (22) that is not the last, so its contract holds in the source only for maxRetries of at most 23 (22).
- Retry.WithRetry: the ghost delays are 2^k s for every k; the limit of `Task.Delay` on them is not modelled.
- Comparison: the HTTP status of a service's reply is not modelled, because the code reads the body whatever the status. Messages and logging are not modelled. A null dereference is one error, whichever value was null.
- Logging and wiring are not modelled: loggers, controllers, dependency injection, options classes, and the health-check classes beyond their `price > 0` predicate.
- The API gateway is not part of this model.
- The per-exchange `IBybitService` interface and `IRedisService` are not modelled separately. Both services use the same cache wrapper.
