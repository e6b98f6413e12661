/**
 * `GET /api/scrape/stock?symbol=…`: the guard chain in front of one quote
 * fetch, the retry policy around it and the response it builds.
 * `upstream(i)` is how the request of the `i`-th attempt settles, or `None`
 * when the attempt's 10-second timer fires first; `start` and `finish` are
 * the clock readings the duration is taken from.
 */
module StockRoute {
  import opened Wrappers
  import opened Js
  import opened StockScraper
  import opened Retry
  import opened Http
  import ScrapeLog

  const Source := "stock-scraper"

  /** `{ maxRetries: 3, baseDelay: 1000, onRetry }`. */
  const Policy := RetryOptions(Some(3), Some(1000.0), None, None)

  const TimeoutMs := 10000

  function SymbolMeta(upper: string): ScrapeLog.Metadata
  {
    map["symbol" := ScrapeLog.Text(upper)]
  }

  /** What one attempt of `scrapeStockPrice(upperSymbol)` settles to under its timer. */
  function Attempt(upper: string, upstream: nat -> Option<Upstream>, now: int, i: nat): Result<StockData, Fault>
  {
    match upstream(i)
    case None => Guard(TimedOut, TimeoutMs)
    case Some(u) => Guard(Settled(ScrapeStockPrice(upper, _ => u, now)), TimeoutMs)
  }

  /** The `onRetry` calls, as logger calls. */
  function RetryLog(upper: string, upstream: nat -> Option<Upstream>, now: int): seq<LogCall>
  {
    var calls := RetryCalls(i => Attempt(upper, upstream, now, i), Resolve(Policy).maxRetries);
    seq(|calls|, k requires 0 <= k < |calls| =>
      LogRetryCall(Source, calls[k].attempt, Some(calls[k].error), Some(SymbolMeta(upper))))
  }

  /** The handler, as the response it returns and the logger calls it makes. */
  function Get(symbol: Option<string>, upstream: nat -> Option<Upstream>, nodeEnv: Option<string>,
               now: int, start: int, finish: int): (h: Handled)
    ensures h.response.status == 200 || h.response.status == 400 || h.response.status == 500
    ensures h.response.status == 400 <==> symbol.None? || symbol.value == "" || !ValidateSymbol(symbol.value)
    ensures h.logged != [] && (h.response.status == 200 <==> h.logged[|h.logged| - 1].LogSuccessCall?)
  {
    if symbol.None? || symbol.value == "" then
      Handled(BadRequest("Symbol parameter required"),
              [LogErrorCall(Source, NonError("Missing required parameter: symbol"))])
    else if !ValidateSymbol(symbol.value) then
      Handled(BadRequest("Invalid stock symbol format (1-5 alphanumeric characters)"),
              [LogErrorCall(Source, NonError("Invalid symbol format: " + symbol.value))])
    else
      var upper := ToUpper(symbol.value);
      var opening := [LogStartCall(Source, Some(SymbolMeta(upper)))] + RetryLog(upper, upstream, now);
      match RetryResult(i => Attempt(upper, upstream, now, i), Resolve(Policy).maxRetries)
      case Success(data) =>
        Handled(Response(200, QuoteBody(data), CachedJson),
                opening + [LogSuccessCall(Source, Some(finish - start), Some(SymbolMeta(upper)))])
      case Failure(error) =>
        Handled(ServerError(error, nodeEnv, finish - start),
                opening + [LogErrorCall(Source, NonError(ErrorMessage(error)))])
  }

  /** How many times the quote is requested. */
  function Requests(symbol: Option<string>, upstream: nat -> Option<Upstream>, now: int): nat
  {
    if symbol.None? || symbol.value == "" || !ValidateSymbol(symbol.value) then 0
    else CallCount(i => Attempt(ToUpper(symbol.value), upstream, now, i), Resolve(Policy).maxRetries)
  }

  // ------------------------------------------------------------ properties

  /** A missing or empty symbol is a 400 and nothing is requested. */
  lemma MissingSymbol(symbol: Option<string>, upstream: nat -> Option<Upstream>, nodeEnv: Option<string>, now: int, start: int, finish: int)
    requires symbol.None? || symbol == Some("")
    ensures Get(symbol, upstream, nodeEnv, now, start, finish).response == BadRequest("Symbol parameter required")
    ensures Requests(symbol, upstream, now) == 0
  {
  }

  /**
   * A symbol that fails validation is a 400 before any request. The message
   * speaks of alphanumeric symbols, but a digit is enough to be refused.
   */
  lemma InvalidSymbol(symbol: string, upstream: nat -> Option<Upstream>, nodeEnv: Option<string>, now: int, start: int, finish: int)
    requires symbol != "" && !ValidateSymbol(symbol)
    ensures Get(Some(symbol), upstream, nodeEnv, now, start, finish).response
            == BadRequest("Invalid stock symbol format (1-5 alphanumeric characters)")
    ensures Requests(Some(symbol), upstream, now) == 0
    ensures Get(Some("AB1"), upstream, nodeEnv, now, start, finish).response.status == 400
  {
    ValidateSymbolIff("AB1");
    assert !IsAsciiLetter("AB1"[2]);
  }

  /**
   * A valid symbol is requested at most three times; a 200 carries the
   * record for the upper-cased symbol with the five-minute cache headers, and
   * anything else is a 500 whose message only development shows.
   */
  lemma ValidSymbolOutcome(symbol: string, upstream: nat -> Option<Upstream>, nodeEnv: Option<string>, now: int, start: int, finish: int)
    requires ValidateSymbol(symbol)
    ensures Requests(Some(symbol), upstream, now) <= 3
    ensures var r := Get(Some(symbol), upstream, nodeEnv, now, start, finish).response;
            (r.status == 200 || r.status == 500)
            && (r.status == 200 ==> r.body.QuoteBody? && r.body.quote.symbol == ToUpper(symbol) && r.headers == CachedJson)
            && (r.status == 500 ==>
                  r.body.FailureBody? && r.body.duration == finish - start
                  && (r.body.message.Some? <==> nodeEnv == Some("development")))
  {
    assert Resolve(Policy).maxRetries == 3;
    CallsBounded(i => Attempt(ToUpper(symbol), upstream, now, i), 3);
    ServedQuote(symbol, upstream, now);
  }

  /** A quote the retried fetch delivers is the record for the upper-cased symbol. */
  lemma ServedQuote(symbol: string, upstream: nat -> Option<Upstream>, now: int)
    requires ValidateSymbol(symbol)
    ensures var r := RetryResult(i => Attempt(ToUpper(symbol), upstream, now, i), 3);
            r.Success? ==> r.value.symbol == ToUpper(symbol)
  {
    var upper := ToUpper(symbol);
    ToUpperIdempotent(symbol);
    ValidateSymbolIff(symbol);
    ValidateSymbolIff(upper);
    var g := i => Attempt(upper, upstream, now, i);
    var r := RetryResult(g, 3);
    if r.Success? {
      var k :| 0 <= k < 3 && g(k) == r by {
        RetrySucceedsIff(g, 3);
        var f := FirstSuccess(g, 3);
        assert g(f.value) == r;
      }
      match upstream(k)
      case None =>
      case Some(u) =>
        ScrapedRecordShape(upper, _ => u, now);
    }
  }

  /**
   * The timeout is per attempt: a first attempt cut off by its timer is
   * retried, and a second attempt that answers in time gives the 200.
   */
  lemma TimedOutThenServed(symbol: string, u: Upstream, nodeEnv: Option<string>, now: int, start: int, finish: int,
                           upstream: nat -> Option<Upstream>)
    requires ValidateSymbol(symbol)
    requires upstream(0) == None && upstream(1) == Some(u)
    requires ScrapeStockPrice(ToUpper(symbol), _ => u, now).Success?
    ensures Get(Some(symbol), upstream, nodeEnv, now, start, finish).response.status == 200
    ensures Requests(Some(symbol), upstream, now) == 2
  {
    var upper := ToUpper(symbol);
    var g := i => Attempt(upper, upstream, now, i);
    assert g(0).Failure? && g(1).Success?;
    assert FirstSuccess(g, 2) == Some(1);
    FirstSuccessStable(g, 2, 3);
  }
}
