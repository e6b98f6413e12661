# Quantevo core, modelled in Dafny

This project models the logic at the centre of Quantevo, a trading-strategy web application written in TypeScript. The modelled parts are:

- **The quote-scraping library.** This is a TTL cache (`ScraperCache`), an append-only event logger (`ScraperLogger`), a retry executor with capped exponential backoff, a per-attempt timeout and a linear variant, the symbol and record validation, HTML sanitising, the settle-all batch partition, and the scraper configuration cell.
- **The two scrape route handlers.** These are the `GET /api/scrape/stock` and `POST /api/scrape/stocks` decision chains. The model covers the response statuses, bodies and headers, and the calls each handler makes on the logger.
- **The strategy marketplace store.** This is three in-memory tables with filtering, sorting, validation, a subscriber counter and reputation recomputation.
- **The keyword "RAG" retriever and router.** This covers substring retrieval, the in-place performance sort, risk filters, the risk-preference precedence, the context digest and the query routing.
- **The shared display helpers.** These are truncation, change colour and sign, the e-mail check, relative time and the market-status marker.
- **Three UI state machines.** These are the watchlist add/remove, the code editor's tab list and status bar, and the strategy form's tag list.

Each source file becomes one module:

| file | module | source |
|---|---|---|
| `cache.dfy` | `Cache` | `lib/scrapers/scraperCache.ts` |
| `logger.dfy` | `ScrapeLog` | `lib/scrapers/scraperLogger.ts` |
| `retry.dfy` | `Retry` | `lib/scrapers/withRetry.ts` |
| `stock_scraper.dfy` | `StockScraper` | `lib/scrapers/stockScraper.ts` |
| `config.dfy` | `ScraperConfig` | `lib/scrapers/config.ts` |
| `http.dfy` | `Http` | the shared response shapes of the two routes |
| `stock_route.dfy` | `StockRoute` | `app/api/scrape/stock/route.ts` |
| `stocks_route.dfy` | `StocksRoute` | `app/api/scrape/stocks/route.ts` |
| `strategies.dfy` | `Marketplace` | `lib/actions/strategies.ts` |
| `rag.dfy` | `Rag` | `lib/rag/ragClient.ts` |
| `utils.dfy` | `Utils` | `lib/utils.ts` |
| `watchlist.dfy` | `Watchlist` | `app/watchlist/page.tsx` |
| `editor.dfy` | `Editor` | `components/IDEEditor.tsx` |
| `strategy_form.dfy` | `StrategyForm` | `app/strategies/create/page.tsx` |

Three modules support the others:

- `Wrappers` holds `Option` and `Result`.
- `Seqs` holds filter, de-duplication and stable descending sort on sequences.
- `Js` models the JavaScript behaviour the code relies on:
  - numbers with NaN and infinities, and their truthiness;
  - thrown values (`Error` objects or anything else);
  - ASCII case mapping;
  - `.length` in UTF-16 code units;
  - `trim` and its white-space class;
  - `includes`, `replaceAll` and integer-to-string conversion.

The model takes each source file's own form:

- **Imperative code becomes classes and methods.**
  - The cache, the logger, the marketplace tables and the configuration cell are classes whose methods change their fields. The cache and the marketplace tables keep a `Valid()` invariant; the logger only appends and needs none.
  - The loops in `cleanup`, `stats`, `withRetry`, `withLinearRetry` and `scrapeMultipleStocks` are `while` loops with invariants. Each is proved against a specification function.
  - The in-place sort in `retrievePerformanceMetrics` writes into the caller's `array`.
- **The rest becomes functions and lemmas over values:** the route handlers, the helpers and the UI transitions.

Nondeterminism comes in as parameters:

- the clock (`now`, in milliseconds);
- the random jitter (`u` in [0, 1));
- what each upstream request or retry attempt settles to (a function from the attempt number to an outcome);
- whether a timer fired first.

## Model

| member | source | states |
|---|---|---|
| Seqs.SortDescStable | lib/actions/strategies.ts:169-174 | sorting keeps the input order among equal keys, as `Array.prototype.sort` does |
| Cache.ScraperCache.constructor | lib/scrapers/scraperCache.ts:16-18 | the cache starts empty; the default TTL is the given seconds (300 when omitted) times 1000 |
| Cache.ScraperCache.TtlFor | lib/scrapers/scraperCache.ts:44 | an omitted TTL is the constructor default; an explicit TTL, 0 included, is used as given in seconds × 1000 (`??`, not `\|\|`) |
| Cache.ScraperCache.Get | lib/scrapers/scraperCache.ts:23-38 | returns the data iff an entry exists with `now - timestamp <= ttl`; an expired entry is removed from the map and from the key order, and nothing else changes |
| Cache.ScraperCache.Set | lib/scrapers/scraperCache.ts:43-50 | overwrites any entry for the key with one stamped `now`; a new key goes last in key order, a known key keeps its place |
| Cache.ScraperCache.Has | lib/scrapers/scraperCache.ts:55-57 | equals `get(k) !== null`, with the same eviction: an expired key leaves the map and the key order, and the other keys keep their order |
| Cache.ScraperCache.Delete | lib/scrapers/scraperCache.ts:62-64 | true iff the key was present; exactly that key leaves the map and the key order |
| Cache.ScraperCache.Clear | lib/scrapers/scraperCache.ts:69-71 | the map and the key order are empty |
| Cache.ScraperCache.Size | lib/scrapers/scraperCache.ts:76-78 | one per stored key, expired ones included: the length of `keys()` |
| Cache.ScraperCache.Keys | lib/scrapers/scraperCache.ts:83-85 | every stored key exactly once, and nothing else |
| Cache.ScraperCache.SizeCountsOrder | lib/scrapers/scraperCache.ts:76-85 | size and keys count the same resident entries, expired ones included |
| Cache.ScraperCache.Cleanup | lib/scrapers/scraperCache.ts:90-102 | removes exactly the expired entries, keeps every other entry unchanged and in order, and returns old size minus new size |
| Cache.Sweep | lib/scrapers/scraperCache.ts:94-99 | the cleanup loop over the keys in insertion order leaves the unexpired entries and counts the deletions |
| Cache.ScraperCache.Stats | lib/scrapers/scraperCache.ts:107-124 | size and keys describe every resident entry, and `ages` has one `now - timestamp` per key, in key order |
| Cache.LookupUnexpired | lib/scrapers/scraperCache.ts:32-95 | `get` sees an entry iff `cleanup` would keep it, with the same data |
| Cache.CleanupIdempotent | lib/scrapers/scraperCache.ts:90-102 | a second cleanup at the same instant removes nothing |
| Cache.GlobalCaches | lib/scrapers/scraperCache.ts:128-129 | the quote cache keeps entries 300 s by default, the news cache 600 s |
| ScrapeLog.SingletonConsoleEnabled | lib/scrapers/scraperLogger.ts:227-229 | the shared logger prints unless `SCRAPER_LOG_ENABLED` is exactly 'false' |
| ScrapeLog.ScraperLogger.constructor | lib/scrapers/scraperLogger.ts:21-26 | the log starts empty; console output is on unless `false` is passed |
| ScrapeLog.ScraperLogger.Log | lib/scrapers/scraperLogger.ts:31-32 | appends exactly the event at the end and leaves earlier events unchanged |
| ScrapeLog.ScraperLogger.LogStart | lib/scrapers/scraperLogger.ts:77-84 | appends one 'start' event with the source, the time and the metadata |
| ScrapeLog.ScraperLogger.LogSuccess | lib/scrapers/scraperLogger.ts:89-101 | appends one 'success' event carrying the duration |
| ScrapeLog.ScraperLogger.LogError | lib/scrapers/scraperLogger.ts:106-118 | appends one 'error' event whose error is the `Error`'s message or the value as a string |
| ScrapeLog.RetryErrorText | lib/scrapers/scraperLogger.ts:133 | a retry's error text is the `Error`'s message, a non-empty string as given, and nothing otherwise |
| ScrapeLog.RetryMetadata | lib/scrapers/scraperLogger.ts:134 | the retry metadata keeps the caller's keys, and `attempt` always holds the attempt number, overriding the caller's |
| ScrapeLog.ScraperLogger.LogRetry | lib/scrapers/scraperLogger.ts:123-136 | appends one 'retry' event with that error text and metadata |
| ScrapeLog.ScraperLogger.LogCacheHit | lib/scrapers/scraperLogger.ts:141-148 | appends one 'cache-hit' event |
| ScrapeLog.ScraperLogger.LogCacheMiss | lib/scrapers/scraperLogger.ts:153-160 | appends one 'cache-miss' event |
| ScrapeLog.ScraperLogger.GetEvents | lib/scrapers/scraperLogger.ts:165-167 | returns the events as a value, which later appends do not reach |
| ScrapeLog.ScraperLogger.GetEventsByType | lib/scrapers/scraperLogger.ts:172-174 | exactly the events of that type, as the type filter of the log: a subsequence in logged order, repeats kept |
| ScrapeLog.ScraperLogger.GetEventsBySource | lib/scrapers/scraperLogger.ts:179-181 | exactly the events from that source, as the source filter of the log: a subsequence in logged order, repeats kept |
| ScrapeLog.OfTypeAfterLog | lib/scrapers/scraperLogger.ts:172-174 | after one more event, the type filter grows by that event alone or not at all, so order is preserved |
| ScrapeLog.OfSourceAfterLog | lib/scrapers/scraperLogger.ts:179-181 | the same for the source filter |
| ScrapeLog.ScraperLogger.GetStats | lib/scrapers/scraperLogger.ts:186-209 | `totalEvents` is the log length; each type count is the length of that type's filter, and the three sum to at most the total; the average is the mean of the defined success durations (0 with none); `sources` is each source once, in order of first appearance |
| ScrapeLog.TypeCountsBounded | lib/scrapers/scraperLogger.ts:200-203 | the three type counts sum to at most the number of events |
| ScrapeLog.SourcesFirstAppearance | lib/scrapers/scraperLogger.ts:207 | the sources are listed in first-appearance order |
| ScrapeLog.MeanBounds | lib/scrapers/scraperLogger.ts:204-206 | the average duration lies between the smallest and the largest recorded duration |
| ScrapeLog.MeanOfNone | lib/scrapers/scraperLogger.ts:194-206 | with no defined success durations the average is 0 |
| ScrapeLog.ScraperLogger.Clear | lib/scrapers/scraperLogger.ts:214-216 | the log is empty |
| Retry.Resolve | lib/scrapers/withRetry.ts:14-40 | each supplied option overrides its default: maxRetries 3, baseDelay 1000, maxDelay 30000, multiplier 2 |
| Retry.FirstSuccess | lib/scrapers/withRetry.ts:44-46 | the first attempt below the bound that succeeds, with every earlier one failed, or none when all fail |
| Retry.WithRetry | lib/scrapers/withRetry.ts:36-81 | the loop returns what the specification says, makes the specified number of calls, and records the specified `onRetry` calls and waits |
| Retry.RetrySucceedsIff | lib/scrapers/withRetry.ts:44-46 | `withRetry` succeeds iff some attempt within `maxRetries` does, and then with the first success |
| Retry.CallsBounded | lib/scrapers/withRetry.ts:44-71 | `fn` runs at most `maxRetries` times and never when that is ≤ 0; no call follows a success; `onRetry` gets attempts 1, 2, … and never runs after the final attempt |
| Retry.ExhaustedMessage | lib/scrapers/withRetry.ts:78-80 | when every attempt fails, the error names `maxRetries` and the last error's message |
| Retry.TraceStep | lib/scrapers/withRetry.ts:56-71 | each failed attempt that is not the last adds exactly one `onRetry` call, numbered one past it, and one wait of its jittered backoff |
| Retry.BackoffBounds | lib/scrapers/withRetry.ts:56-59 | the capped delay lies between 0 and `maxDelay` for non-negative options |
| Retry.BackoffMonotone | lib/scrapers/withRetry.ts:56-59 | with a multiplier of at least 1 the delays never shrink |
| Retry.Backoff | lib/scrapers/withRetry.ts:56-59 | the delay is at most `maxDelay` and at most `baseDelay × multiplier^attempt`, and equals one of the two |
| Retry.Jittered | lib/scrapers/withRetry.ts:62-63 | the jitter adds between 0 and a tenth of the delay, less than a tenth for a positive delay |
| Retry.DefaultBackoff | lib/scrapers/withRetry.ts:14-59 | with the defaults, the waits are 1 s, 2 s, 4 s, …, up to the 30 s cap |
| Retry.WithLinearRetry | lib/scrapers/withRetry.ts:140-160 | at most `maxRetries` calls, one wait between attempts and none after the last, and the specified result |
| Retry.LinearRethrowsLast | lib/scrapers/withRetry.ts:159 | `withLinearRetry` rethrows the last error object itself, or 'Operation failed' when `fn` never ran |
| Retry.Guard | lib/scrapers/withRetry.ts:91-101 | an attempt that settles in time keeps its outcome; one the timer beats fails with 'Operation timed out after <ms>ms' |
| Retry.WithRetryAndTimeout | lib/scrapers/withRetry.ts:111-120 | result, number of calls, `onRetry` calls and waits are exactly those of `withRetry` over attempts each guarded by its own timer, 10000 ms by default, so a timed-out attempt is a failure that is retried after the backoff |
| Retry.TimeoutPerAttempt | lib/scrapers/withRetry.ts:111-120 | a timed-out first attempt is one failure, and a second attempt that settles in time succeeds |
| StockScraper.ValidateSymbolIff | lib/scrapers/stockScraper.ts:21-23 | a symbol is valid iff it has 1 to 5 characters, all ASCII letters in either case |
| StockScraper.ValidateSymbolExamples | lib/scrapers/stockScraper.ts:21-23 | lower case is accepted; the empty string, digits and six letters are not |
| StockScraper.StockDataError | lib/scrapers/stockScraper.ts:30-40 | the record passes iff the symbol is non-empty, the price is truthy and `change` is a number; otherwise the message is the source's |
| StockScraper.FalsyPriceIsMissing | lib/scrapers/stockScraper.ts:31-36 | a price of 0 or NaN is reported as missing, so the NaN check can never fire; an infinite price passes |
| StockScraper.StripTags | lib/scrapers/stockScraper.ts:49 | the result is a subsequence of the text: removing tags only deletes characters and keeps the rest in order |
| StockScraper.StripTagsLeavesNoTag | lib/scrapers/stockScraper.ts:49 | after tag removal, no `<` is followed by a `>` |
| StockScraper.StripTagsPlain | lib/scrapers/stockScraper.ts:49 | text without `<` is unchanged |
| StockScraper.Sanitize | lib/scrapers/stockScraper.ts:47-53 | the cleaned text neither starts nor ends with white space |
| StockScraper.SanitizePlain | lib/scrapers/stockScraper.ts:47-53 | text with no `<` and no `&` is only trimmed |
| StockScraper.SanitizeDecodesOnce | lib/scrapers/stockScraper.ts:47-53 | because `&nbsp;` is decoded before `&amp;`, `&amp;nbsp;` comes out as `&nbsp;` |
| StockScraper.Round2Bounds | lib/scrapers/stockScraper.ts:103-105 | rounding to cents keeps the sign and moves the value by at most half a cent |
| StockScraper.OrZero | lib/scrapers/stockScraper.ts:97-99 | `x \|\| 0` keeps a truthy number and gives a falsy result only for a falsy or missing one |
| StockScraper.InvalidSymbolNoFetch | lib/scrapers/stockScraper.ts:68-70 | an invalid symbol is rejected with 'Invalid stock symbol format' whatever the upstream would return |
| StockScraper.ScrapeStockPrice | lib/scrapers/stockScraper.ts:67-119 | a record comes back only for a valid symbol, and it carries the upper-cased symbol and the request time |
| StockScraper.ScrapedRecordShape | lib/scrapers/stockScraper.ts:73-113 | a returned record has the upper-cased symbol, the source 'financialmodelingprep', the time and a truthy price |
| StockScraper.BatchResults | lib/scrapers/stockScraper.ts:132-134 | every symbol's fetch is settled, in input order |
| StockScraper.ScrapeMultipleStocks | lib/scrapers/stockScraper.ts:130-157 | the loop returns the fulfilled records and collects the failed symbols, both in input order |
| StockScraper.PartitionSizes | lib/scrapers/stockScraper.ts:139-146 | records plus failed symbols number exactly the inputs |
| StockScraper.FulfilledIff | lib/scrapers/stockScraper.ts:140-141 | a record is returned iff some fetch fulfilled with it |
| StockScraper.FailedSymbolsIff | lib/scrapers/stockScraper.ts:142-143 | a symbol is reported failed iff its fetch rejected |
| StockScraper.ScrapeFinancialNews | lib/scrapers/stockScraper.ts:175-178 | always no news |
| ScraperConfig.MergeFields | lib/scrapers/config.ts:70-72 | every supplied field takes its new value, every other field keeps its old one, and nothing is validated |
| ScraperConfig.MergeIdentityAndIdempotence | lib/scrapers/config.ts:70-72 | an empty update changes nothing, and the same update twice equals once |
| ScraperConfig.MergeThen | lib/scrapers/config.ts:70-72 | successive updates compose field by field, the later one winning |
| ScraperConfig.ConfigStore.constructor | lib/scrapers/config.ts:32-58 | the cell starts as the defaults |
| ScraperConfig.ConfigStore.Get | lib/scrapers/config.ts:63-65 | returns the current configuration, which `set` and `reset` define |
| ScraperConfig.ConfigStore.Set | lib/scrapers/config.ts:70-72 | the cell becomes the shallow merge of its value and the update |
| ScraperConfig.ConfigStore.Reset | lib/scrapers/config.ts:77-79 | the cell is the defaults again |
| ScraperConfig.UpdateThenReset | lib/scrapers/config.ts:32-79 | after any updates, reset gives back exactly the defaults, because no update mutates the defaults object |
| Http.BadRequest | app/api/scrape/stock/route.ts:35-38 | a 400 carrying an `error` field |
| Http.ServerError | app/api/scrape/stock/route.ts:74-87 | a 500 'Failed to fetch stock data' whose `message` is present iff `NODE_ENV` is 'development' |
| StockRoute.Get | app/api/scrape/stock/route.ts:25-89 | the status is 200, 400 or 500; 400 iff the symbol is missing, empty or invalid; the handler always logs, and its last logger call is a success iff the status is 200 |
| StockRoute.MissingSymbol | app/api/scrape/stock/route.ts:33-39 | a missing or empty symbol gives 400 'Symbol parameter required' and nothing is fetched |
| StockRoute.InvalidSymbol | app/api/scrape/stock/route.ts:41-47 | a symbol that fails validation, digits included, gives 400 before any fetch |
| StockRoute.ValidSymbolOutcome | app/api/scrape/stock/route.ts:49-87 | a valid symbol is fetched at most 3 times; a 200 carries the upper-cased record with `Cache-Control: public, max-age=300`; anything else is a 500 |
| StockRoute.TimedOutThenServed | app/api/scrape/stock/route.ts:53-63 | the 10 s timeout is per attempt: a timed-out first attempt is retried and a timely second one gives the 200 |
| StocksRoute.ValidSymbols | app/api/scrape/stocks/route.ts:52 | the kept symbols are upper-cased valid symbols, never more than were sent |
| StocksRoute.ValidSymbolsSpec | app/api/scrape/stocks/route.ts:52 | the kept symbols are `map(toUpperCase).filter(validateSymbol)`: a subsequence of the upper-cased input that holds each upper-cased element iff it is valid |
| StocksRoute.Post | app/api/scrape/stocks/route.ts:27-111 | the status is 200, 400 or 500; 400 iff `symbols` is not a non-empty array, has more than 50 elements, or is all strings of which none is valid; the last logger call is a success iff the status is 200 |
| StocksRoute.NotANonEmptyArray | app/api/scrape/stocks/route.ts:35-41 | a non-array or empty `symbols` gives 400 'Symbols must be a non-empty array' |
| StocksRoute.TooManySymbols | app/api/scrape/stocks/route.ts:43-49 | more than 50 symbols gives 400 'Maximum 50 symbols per request', before any symbol is validated |
| StocksRoute.NoValidSymbols | app/api/scrape/stocks/route.ts:52-60 | invalid symbols are dropped silently, and none left gives a 400 |
| StocksRoute.BatchOutcome | app/api/scrape/stocks/route.ts:62-109 | a 200 has `count == data.length`, at most the number of valid symbols; only timed-out attempts make a 500 |
| StocksRoute.WholeBatchRetried | app/api/scrape/stocks/route.ts:65-75 | the retry wraps the whole batch: after a timed-out attempt every valid symbol is fetched again |
| Marketplace.ValuesOf | lib/actions/strategies.ts:159 | `Object.values` lists the stored values in key insertion order |
| Marketplace.Selected | lib/actions/strategies.ts:159-167 | a strategy is selected iff it is public, matches a given non-empty risk level, and carries a given non-empty tag; the three filters in turn equal one filter on all three conditions, so the input order is kept |
| Marketplace.PublicStrategies | lib/actions/strategies.ts:151-182 | the result is a permutation of the selection, sorted descending by the named key, and in store order without one |
| Marketplace.EmptyFiltersIgnored | lib/actions/strategies.ts:161-167 | an empty-string tag or risk level filters nothing |
| Marketplace.PublicStrategiesStable | lib/actions/strategies.ts:169-174 | strategies tied on the sort key keep their table order |
| Marketplace.Store.constructor | lib/actions/strategies.ts:9-146 | the tables hold the three seed strategies in order, and no subscriptions or reviews |
| Marketplace.Store.GetPublicStrategies | lib/actions/strategies.ts:151-182 | the public selection over the table in store order: a permutation of it sorted (stably) by the named key, or that selection unchanged without a key |
| Marketplace.Store.GetStrategyById | lib/actions/strategies.ts:187-198 | the stored strategy, or 'Strategy not found' for an unknown id |
| Marketplace.PublishError | lib/actions/strategies.ts:208-214 | a trimmed title under 3 UTF-16 code units is refused first, then an empty conditions list; anything else passes |
| Marketplace.Published | lib/actions/strategies.ts:215-248 | the new strategy has id `strat-<now>`, the anonymous author, 0 subscribers, reputation 50, the input's fields and the given timestamps; its simulated figures were backtested from 365 days before `now` up to `now` |
| Marketplace.Store.PublishStrategy | lib/actions/strategies.ts:203-254 | a refused input changes nothing; otherwise the new strategy is stored under its id and the other tables are untouched |
| Marketplace.Store.Store | lib/actions/strategies.ts:248 | the strategy is stored under its id, a new id going last in key order, and the other tables are untouched |
| Marketplace.Store.SubscribeToStrategy | lib/actions/strategies.ts:259-286 | an unknown strategy changes nothing; otherwise an active subscription `sub-<user>-<strategy>` is stored and subscribers grow by exactly 1, even on a repeat |
| Marketplace.ReviewError | lib/actions/strategies.ts:298-304 | a review passes iff its rating is in [1, 5] and its trimmed comment has at least 5 UTF-16 code units; the rating is checked first |
| Marketplace.AstralTitle | lib/actions/strategies.ts:208-210 | a title of two astral emoji is 4 code units long and is accepted |
| Marketplace.AstralComment | lib/actions/strategies.ts:302-304 | a comment of three astral emoji is 6 code units long and is accepted |
| Marketplace.Store.LeaveReview | lib/actions/strategies.ts:291-336 | a review is checked before the strategy is looked up; an accepted one is appended, so `getStrategyReviews` gives the old list plus it, and the reputation is recomputed from all reviews |
| Marketplace.Store.FileReview | lib/actions/strategies.ts:321-329 | the review is appended to its strategy's list and that strategy's reputation recomputed; no other entry changes |
| Marketplace.SingleReviewReputation | lib/actions/strategies.ts:327-329 | one review sets the reputation to round(rating × 20) |
| Marketplace.Reputation | lib/actions/strategies.ts:327-329 | ratings from 1 to 5 keep the reputation between 20 and 100 |
| Marketplace.SumRatingsBounds | lib/actions/strategies.ts:327-329 | the rating sum lies between n and 5n |
| Marketplace.Store.GetStrategyReviews | lib/actions/strategies.ts:341-349 | the list filed for the strategy, in filing order, all about it and rated 1 to 5; [] when it has none |
| Marketplace.Store.GetUserSubscriptions | lib/actions/strategies.ts:354-362 | exactly the subscriptions with that user id, in the order they were first stored |
| Rag.RetrieveStrategies | lib/rag/ragClient.ts:59-75 | exactly the strategies whose search text contains the lower-cased query, in input order (the filter on that condition, a subsequence of the input) |
| Rag.EmptyQueryRetrievesAll | lib/rag/ragClient.ts:62-73 | an empty query retrieves every strategy |
| Rag.FieldMatchRetrieved | lib/rag/ragClient.ts:62-73 | a query found in the lower-cased title, description, a tag or the risk level retrieves the strategy |
| Rag.PerformanceOrder | lib/rag/ragClient.ts:80-92 | a performance query sorts by average return, descending, as a permutation; any other query leaves the order alone |
| Rag.PerformanceOrderStable | lib/rag/ragClient.ts:89-91 | strategies with equal average returns keep their input order |
| Rag.RetrievePerformanceMetrics | lib/rag/ragClient.ts:80-92 | the caller's array is left in that order, and the result is the sorted array or [] |
| Rag.RetrieveRiskData | lib/rag/ragClient.ts:97-111 | [] without a risk keyword; otherwise exactly the strategies at the requested level, 'low' winning over 'high', all when neither is named |
| Rag.LowRiskWins | lib/rag/ragClient.ts:103-108 | a risk query naming both 'low' and 'high' returns only low-risk strategies |
| Rag.BuildContext | lib/rag/ragClient.ts:116-132 | zero portfolio metrics and no alerts unless supplied |
| Rag.ExtractRiskPreference | lib/rag/ragClient.ts:195-206 | 'low' iff conservative or "low risk"; else 'high' iff aggressive or "high risk"; else 'medium' iff balanced or medium; else none |
| Rag.ConservativeOutranksAggressive | lib/rag/ragClient.ts:196-199 | a query naming both conservative and aggressive prefers low risk |
| Rag.FirstSuiting | lib/rag/ragClient.ts:146-150 | the first strategy at the preferred level, any level without a preference, or none |
| Rag.Recommendation | lib/rag/ragClient.ts:142-173 | no recommendation iff no context strategy suits the preference; otherwise the first that does |
| Rag.FirstSuitingIsBest | lib/rag/ragClient.ts:146-150 | in a descending list, the first suitable strategy has the largest key among the suitable ones |
| Rag.RecommendationAfterSort | lib/rag/ragClient.ts:258-264 | a question asking for a recommendation and for returns gets the best average return at the preferred level |
| Rag.AlertLines | lib/rag/ragClient.ts:228 | one line per alert, in order |
| Rag.FormatContextForLLM | lib/rag/ragClient.ts:211-230 | at most 5 strategies, in context order; the no-alerts text iff there are no alerts, else the lines of the first 3 alerts; a '+' day sign iff the day change is ≥ 0 |
| Rag.AlertsCapped | lib/rag/ragClient.ts:228 | alerts after the third leave the digest's alert lines unchanged |
| Rag.Confidence | lib/rag/ragClient.ts:279 | the confidence lies between 0.5 and 0.95, and is 0.95 whenever the merged list is at least as long as a non-empty input |
| Rag.Merged | lib/rag/ragClient.ts:258 | no strategy twice; its exact contents are stated by Rag.MergedStrategies |
| Rag.Route | lib/rag/ragClient.ts:261-275 | a recommendation iff the question says 'recommend'; each kind of answer comes with exactly its sources |
| Rag.QueryResult | lib/rag/ragClient.ts:237-289 | confidence in [0.5, 0.95], distinct context strategies, and a recommendation iff the question says 'recommend' |
| Rag.Query | lib/rag/ragClient.ts:237-289 | the caller's array ends in performance order, and the response is the specified routing of the three retrievals |
| Rag.QuerySources | lib/rag/ragClient.ts:258-283 | 'recommend' gives [strategies, performance-metrics]; else 'portfolio' gives [portfolio-metrics, alerts]; else [all-data] |
| Rag.MergedStrategies | lib/rag/ragClient.ts:258 | the returned strategies are distinct and are exactly the union of the text matches, every strategy when the question names performance, and the risk matches |
| Utils.TruncateText | lib/utils.ts:124-127 | the text itself when it fits; else its first `maxLength` characters and '...' |
| Utils.TruncateLength | lib/utils.ts:124-127 | a truncated text is at most three characters over the limit |
| Utils.ValueChangeColor | lib/utils.ts:28-32 | green iff positive, red iff negative, gray otherwise (0 and NaN) |
| Utils.FormatPercentage | lib/utils.ts:21-23 | a '+' only for a strictly positive value, and always a trailing '%' |
| Utils.NoSignForZero | lib/utils.ts:21-23 | zero and NaN get no sign |
| Utils.IsValidEmail | lib/utils.ts:109-112 | accepts iff the text is a@b.c with each part one or more characters that are neither white space nor '@' |
| Utils.EmailSplit | lib/utils.ts:109-112 | splitting at the first '@' decides exactly the pattern's language |
| Utils.ValidEmailExample | lib/utils.ts:109-112 | 'a@b.c' is accepted |
| Utils.PickUnit | lib/utils.ts:85-104 | the unit is the first, from years down, whose quotient strictly exceeds 1 |
| Utils.RelativeTime | lib/utils.ts:85-104 | the text ends with a space, the chosen unit's name and ' ago' |
| Utils.UnitCountRange | lib/utils.ts:85-104 | the floored count is at least 1 above seconds and stays below the next unit up |
| Utils.TwoHoursAgo | lib/utils.ts:85-104 | 7200 s ago reads '2 hours ago' |
| Utils.SixtySecondsAgo | lib/utils.ts:85-104 | 60 s ago reads '60 seconds ago', not '1 minutes ago' |
| Utils.MarketStatusEmoji | lib/utils.ts:139-147 | every status maps to the four-character marker written in the source |
| Utils.MarketStatusMarkers | lib/utils.ts:139-147 | 'pre' and 'after' share a marker; all other statuses differ |
| Watchlist.AddStock | app/watchlist/page.tsx:44-67 | blank input or a symbol already listed (any letter case, untrimmed) leaves the list as it was; otherwise the item with an upper-cased symbol and a trimmed name goes first and the inputs clear |
| Watchlist.RemoveStock | app/watchlist/page.tsx:69-72 | exactly the items whose symbol is not the given one survive, in their order (the filter on that condition, a subsequence of the input) |
| Watchlist.AddKeepsSymbolsDistinct | app/watchlist/page.tsx:51-63 | if no two symbols were equal after upper-casing, none are after an add |
| Watchlist.RemoveKeepsSymbolsDistinct | app/watchlist/page.tsx:69-72 | removing keeps the symbols distinct |
| Watchlist.RemoveIdempotent | app/watchlist/page.tsx:69-72 | removing twice equals removing once |
| Watchlist.CaseInsensitiveDuplicate | app/watchlist/page.tsx:51-55 | a symbol differing from a listed one only in letter case is refused |
| Editor.Initial | components/IDEEditor.tsx:77-92 | the supplied files with the first active, or the single example file with id '1'; dark theme, font size 14, minimap and line numbers on |
| Editor.ActiveFile | components/IDEEditor.tsx:98 | the first file with the active id, or none iff no file has it |
| Editor.UpdateFileContent | components/IDEEditor.tsx:187-194 | the files with that id get the content and are marked modified; every other file is unchanged |
| Editor.AddNewFile | components/IDEEditor.tsx:196-210 | one empty, unmodified 'untitled.tsx' goes last and its id becomes active |
| Editor.AddedFileActive | components/IDEEditor.tsx:196-210 | the new file is the active file, unless an older file already had its id |
| Editor.CloseFile | components/IDEEditor.tsx:212-221 | exactly the files with other ids remain, in their order (the filter on that condition); the first of them becomes active, or '' when none remain |
| Editor.CloseActivatesFirst | components/IDEEditor.tsx:212-221 | after a close the active file is the first remaining one, even when the closed file was not active |
| Editor.SaveFiles | components/IDEEditor.tsx:240-248 | the current files go to the save callback when there is one; then every file is unmodified with its content kept |
| Editor.SaveIdempotent | components/IDEEditor.tsx:240-248 | saving twice leaves the same state as saving once |
| Editor.ToggleTheme | components/IDEEditor.tsx:270-273 | the theme flips and nothing else changes |
| Editor.ToggleTwice | components/IDEEditor.tsx:270-273 | toggling twice restores the state |
| Editor.SplitLines | components/IDEEditor.tsx:422 | `split('\n')` gives at least one piece, none containing a line break |
| Editor.SplitCount | components/IDEEditor.tsx:422 | `split('\n')` gives one more piece than there are line breaks |
| Editor.SplitJoin | components/IDEEditor.tsx:422 | joining the pieces with line breaks gives back the text |
| Editor.LastLine | components/IDEEditor.tsx:423 | the last piece is the text after the last line break |
| Editor.Position | components/IDEEditor.tsx:422-423 | the line number is the line-break count plus one; the column is one past the last line's UTF-16 length |
| Editor.ColumnAfterLastBreak | components/IDEEditor.tsx:423 | the column is one past the UTF-16 length of the text after the last line break |
| Editor.ColumnOnFirstLine | components/IDEEditor.tsx:423 | with no line break, the column is one past the UTF-16 length of the whole text |
| Editor.StatusBar | components/IDEEditor.tsx:418-425 | a position is shown iff an open file has the active id |
| StrategyForm.AddTag | app/strategies/create/page.tsx:97-102 | a non-blank input with fewer than 5 tags appends the trimmed, lower-cased input and clears the field; otherwise nothing changes |
| StrategyForm.TagsNeverExceedFive | app/strategies/create/page.tsx:98-99 | no sequence of typing, adding and removing takes the list past 5 tags |
| StrategyForm.AddedTagNormalised | app/strategies/create/page.tsx:99 | an added tag is trimmed and lower case |
| StrategyForm.DuplicateTagsAccepted | app/strategies/create/page.tsx:98-99 | a tag equal to one already present is added again |
| StrategyForm.RemoveTag | app/strategies/create/page.tsx:104-106 | removes exactly the tag at the index and keeps the others in order; an index out of range changes nothing |
| StrategyForm.RemoveShortens | app/strategies/create/page.tsx:104-106 | a valid removal shortens the list by one and shifts the later tags down |
| StrategyForm.Submit | app/strategies/create/page.tsx:108-124 | no tags gives 'Please add at least one tag' and no publish; otherwise `publishStrategy('user-demo', …)` gets the form's fields and the tags |

## Left out

- Console output (`console.*` in the logger, the scraper, the retry loop and the routes) is not modelled; the logger's records are.
- Cache.ScraperCache.Has: the source's `has` is `get(key) !== null`, so a stored `null` counts as absent. Stored values in the model are never null, so that case is not modelled.
- Utils.TruncateText: the source's `length` and `substr` count UTF-16 code units, and `substr` can cut an astral character in half, leaving a lone surrogate. A Dafny `string` cannot hold a lone surrogate, so the model compares and cuts in whole characters. The two agree on text without astral characters, such as emoji.
- Marketplace.Store.GetStrategyById: the strategy, subscription and review tables are object literals. Ids such as 'constructor', 'toString' or '__proto__' find inherited `Object.prototype` members there (`getStrategyById('constructor')` succeeds in the source); the model's maps hold only stored keys.
- ScraperConfig.ConfigStore.Get: `let config = DEFAULT_SCRAPER_CONFIG` shares the defaults object, so before the first `set` a caller mutating the object `getScraperConfig()` returns changes the defaults too. The model returns values, so that aliasing is not modelled.
- Case mapping is modelled on ASCII letters only. JavaScript's full Unicode `toUpperCase` (for example 'ß' to 'SS') is not.
- Numbers are exact reals or integers, not binary floating point. `toFixed`, `parseFloat`, `toLocaleString` and the RAG confidence formula are modelled at most through sign and range facts.
- Retry.Resolve: a non-integer or `undefined` `maxRetries` passed explicitly is not modelled; options are integers or left out.
- Retry.WithLinearRetry: `maxRetries` is an integer here. A fractional count in the source runs as many attempts as its ceiling, and that is not modelled. An explicit `undefined` takes the default, as a missing argument does.
- ScraperConfig.MergeFields: a field passed to `setScraperConfig` explicitly as `undefined` overwrites the old value with `undefined` in the source. An update here can only supply a value or leave the field out, so that case is not modelled.
- Timers, sleeps, `Promise.race` and `Promise.allSettled` scheduling are abstract. A timed-out attempt is an outcome; the background work it leaves running is not modelled.
- The axios request, its headers and the upstream JSON shape are a parameter (`fetch`); `new Date()` and `Date.now()` are the parameter `now`.
- StocksRoute.Post: a non-string element of `symbols` throws a `TypeError` inside `toUpperCase`. The model reports it as the 500 path with that error's message, without modelling the exact message text.
- `maxConcurrentRequests` is stored in the configuration but no fetch path reads it, so it has no effect in the model either.
- The single-stock route's 400 text says "1-5 alphanumeric characters" while `validateSymbol` accepts letters only; `StockRoute.InvalidSymbol` states the letters-only behaviour.
- Marketplace.ReviewError: the rating is a finite real. A NaN rating would pass the source's range check; that case is not modelled.
- Marketplace.Store.PublishStrategy: the random backtest figures are a parameter; the backtest window is modelled. Two strategies published in the same millisecond share an id; the second overwrites the first, as stated.
- Aliasing is not modelled. The source returns the stored strategy objects themselves, so a caller could mutate the store through them; the model returns values.
- Rag.MergedStrategies: `new Set` de-duplicates by object identity; the model de-duplicates by value. The two agree while no two stored strategies are equal field by field.
- The RAG answer texts (`toFixed` and `toLocaleString` formatting), the unused `RAGQuery.context` and `maxResults` fields, and the always-empty market data are not modelled.
- The editor's `LANGUAGE_EXTENSIONS` display table, its regular-expression syntax highlighter, and CodeMirror are not modelled.
- The watchlist's `localStorage` load and save, and the toasts' timing, are not modelled.
- `Utils.MarketStatusEmoji` uses the characters as they appear in the source text, a mis-decoded rendering of coloured circles.
- `formatCurrency`, `calculatePortfolioMetrics`, `debounce`, `isToday`, `generateId` and `roundTo` in `lib/utils.ts` are floating-point, timer or randomness helpers and are not modelled.
