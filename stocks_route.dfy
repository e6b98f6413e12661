/**
 * `POST /api/scrape/stocks` with a body `{ symbols }`: the guard chain on the
 * symbol list, the one retry policy wrapped around the whole batch, and the
 * response. `batch(i)` is how the `i`-th attempt's per-symbol requests
 * settle, or `None` when that attempt's 15-second timer fires first.
 */
module StocksRoute {
  import opened Wrappers
  import opened Seqs
  import opened Js
  import opened StockScraper
  import opened Retry
  import opened Http
  import ScrapeLog

  /** The `symbols` field of the request body, as far as the handler distinguishes it. */
  datatype Json = JString(s: string) | JArray(items: seq<Json>) | JOther

  const Source := "stocks-scraper"

  /** `{ maxRetries: 2, baseDelay: 1000, onRetry }`. */
  const Policy := RetryOptions(Some(2), Some(1000.0), None, None)

  const TimeoutMs := 15000

  const MaxSymbols := 50

  const NotAnArray := "Symbols must be a non-empty array"
  const TooMany := "Maximum 50 symbols per request"
  const NoValid := "No valid stock symbols provided"

  /** The `TypeError` thrown when `toUpperCase` is called on an element that is not a string. */
  const NotAString := ErrorObject("s.toUpperCase is not a function")

  predicate AllStrings(items: seq<Json>)
  {
    forall i :: 0 <= i < |items| ==> items[i].JString?
  }

  /** `symbols.map(s => s.toUpperCase()).filter(s => validateSymbol(s))`. */
  function ValidSymbols(items: seq<Json>): (valid: seq<string>)
    requires AllStrings(items)
    ensures |valid| <= |items|
    ensures forall i :: 0 <= i < |valid| ==> ValidateSymbol(valid[i]) && ToUpper(valid[i]) == valid[i]
  {
    if items == [] then []
    else
      var u := ToUpper(items[0].s);
      ToUpperIdempotent(items[0].s);
      (if ValidateSymbol(u) then [u] else []) + ValidSymbols(items[1..])
  }

  /** `symbols.map(s => s.toUpperCase())`. */
  function Uppers(items: seq<Json>): (u: seq<string>)
    requires AllStrings(items)
    ensures |u| == |items|
  {
    seq(|items|, i requires 0 <= i < |items| => ToUpper(items[i].s))
  }

  /**
   * The symbols kept are the upper-cased inputs that pass validation, all of
   * them and in input order.
   */
  lemma {:induction false} ValidSymbolsSpec(items: seq<Json>)
    requires AllStrings(items)
    ensures ValidSymbols(items) == Filter(Uppers(items), ValidateSymbol)
    ensures forall u :: u in ValidSymbols(items) <==> u in Uppers(items) && ValidateSymbol(u)
    ensures Subsequence(ValidSymbols(items), Uppers(items))
  {
    if items != [] {
      ValidSymbolsSpec(items[1..]);
      var us := Uppers(items);
      assert us[1..] == Uppers(items[1..]);
      if ValidateSymbol(us[0]) {
        assert Filter(us, ValidateSymbol) == [us[0]] + Filter(us[1..], ValidateSymbol);
      } else {
        assert Filter(us, ValidateSymbol) == Filter(us[1..], ValidateSymbol);
      }
    }
    forall u ensures u in ValidSymbols(items) <==> u in Uppers(items) && ValidateSymbol(u) {
      FilterIn(Uppers(items), ValidateSymbol, u);
    }
    FilterSubsequence(Uppers(items), ValidateSymbol);
  }

  /** What one attempt of `scrapeMultipleStocks(validSymbols)` settles to under its timer. */
  function Attempt(valid: seq<string>, batch: nat -> Option<string -> Upstream>, now: int, i: nat): Result<seq<StockData>, Fault>
  {
    match batch(i)
    case None => Guard(TimedOut, TimeoutMs)
    case Some(fetch) => Guard(Settled(Success(Fulfilled(BatchResults(valid, fetch, now)))), TimeoutMs)
  }

  /** The attempts the retry loop makes, as a function of the attempt number. */
  function Attempts(valid: seq<string>, batch: nat -> Option<string -> Upstream>, now: int): nat -> Result<seq<StockData>, Fault>
  {
    (i: nat) => Attempt(valid, batch, now, i)
  }

  function RetryLog(valid: seq<string>, batch: nat -> Option<string -> Upstream>, now: int): seq<LogCall>
  {
    var calls := RetryCalls(Attempts(valid, batch, now), Resolve(Policy).maxRetries);
    seq(|calls|, k requires 0 <= k < |calls| => LogRetryCall(Source, calls[k].attempt, Some(calls[k].error), None))
  }

  /** The handler, as the response it returns and the logger calls it makes. */
  function Post(symbols: Json, batch: nat -> Option<string -> Upstream>, nodeEnv: Option<string>,
                now: int, start: int, finish: int): (h: Handled)
    ensures h.response.status == 200 || h.response.status == 400 || h.response.status == 500
    ensures h.response.status == 400 <==>
              || !symbols.JArray? || |symbols.items| == 0 || |symbols.items| > MaxSymbols
              || (AllStrings(symbols.items) && ValidSymbols(symbols.items) == [])
    ensures h.logged != [] && (h.response.status == 200 <==> h.logged[|h.logged| - 1].LogSuccessCall?)
  {
    if !symbols.JArray? || |symbols.items| == 0 then
      Handled(BadRequest(NotAnArray), [LogErrorCall(Source, NonError("Invalid symbols array"))])
    else if |symbols.items| > MaxSymbols then
      Handled(BadRequest(TooMany), [LogErrorCall(Source, NonError("Too many symbols requested"))])
    else if !AllStrings(symbols.items) then
      Handled(ServerError(NotAString, nodeEnv, finish - start), [LogErrorCall(Source, NonError(ErrorMessage(NotAString)))])
    else
      var valid := ValidSymbols(symbols.items);
      if valid == [] then
        Handled(BadRequest(NoValid), [LogErrorCall(Source, NonError("No valid symbols provided"))])
      else
        var outcome := RetryResult(Attempts(valid, batch, now), Resolve(Policy).maxRetries);
        var opening := [LogStartCall(Source, Some(map["count" := ScrapeLog.Number(|valid|), "symbols" := ScrapeLog.Texts(valid)]))]
                       + RetryLog(valid, batch, now);
        Handled(BatchAnswer(outcome, nodeEnv, now, finish - start),
                opening + [BatchClosing(outcome, |valid|, finish - start)])
  }

  /** The response once the retried batch has settled: its records, or the 500 for its error. */
  function BatchAnswer(outcome: Result<seq<StockData>, Fault>, nodeEnv: Option<string>, now: int, duration: int): Response
  {
    match outcome
    case Success(data) => Response(200, BatchBody(data, |data|, now), CachedJson)
    case Failure(error) => ServerError(error, nodeEnv, duration)
  }

  /** The last logger call once the retried batch has settled. */
  function BatchClosing(outcome: Result<seq<StockData>, Fault>, requested: nat, duration: int): LogCall
  {
    match outcome
    case Success(data) =>
      LogSuccessCall(Source, Some(duration),
                     Some(map["count" := ScrapeLog.Number(|data|), "requested" := ScrapeLog.Number(requested)]))
    case Failure(error) => LogErrorCall(Source, NonError(ErrorMessage(error)))
  }

  // ------------------------------------------------------------ properties

  /** Anything but a non-empty array is a 400. */
  lemma NotANonEmptyArray(symbols: Json, batch: nat -> Option<string -> Upstream>, nodeEnv: Option<string>, now: int, start: int, finish: int)
    requires !symbols.JArray? || symbols.items == []
    ensures Post(symbols, batch, nodeEnv, now, start, finish).response == BadRequest(NotAnArray)
  {
  }

  /** More than 50 symbols is a 400, whatever the symbols are: the size is checked before validity. */
  lemma TooManySymbols(items: seq<Json>, batch: nat -> Option<string -> Upstream>, nodeEnv: Option<string>, now: int, start: int, finish: int)
    requires |items| > 50
    ensures Post(JArray(items), batch, nodeEnv, now, start, finish).response == BadRequest(TooMany)
  {
  }

  /** Invalid symbols are dropped silently; when none is left the answer is a 400. */
  lemma NoValidSymbols(items: seq<Json>, batch: nat -> Option<string -> Upstream>, nodeEnv: Option<string>, now: int, start: int, finish: int)
    requires 0 < |items| <= 50 && AllStrings(items)
    requires forall i :: 0 <= i < |items| ==> !ValidateSymbol(ToUpper(items[i].s))
    ensures Post(JArray(items), batch, nodeEnv, now, start, finish).response == BadRequest(NoValid)
  {
    NoneValid(items);
  }

  lemma {:induction false} NoneValid(items: seq<Json>)
    requires AllStrings(items)
    requires forall i :: 0 <= i < |items| ==> !ValidateSymbol(ToUpper(items[i].s))
    ensures ValidSymbols(items) == []
  {
    if items != [] {
      NoneValid(items[1..]);
    }
  }

  /**
   * A 200 reports `count == data.length`, at most one record per valid
   * symbol; the batch never fails on its own, so only two timed-out attempts
   * make a 500.
   */
  lemma BatchOutcome(items: seq<Json>, batch: nat -> Option<string -> Upstream>, nodeEnv: Option<string>, now: int, start: int, finish: int)
    requires 0 < |items| <= 50 && AllStrings(items) && ValidSymbols(items) != []
    ensures var r := Post(JArray(items), batch, nodeEnv, now, start, finish).response;
            && (r.status == 200 ==> r.body.BatchBody? && r.body.count == |r.body.data| <= |ValidSymbols(items)|
                                    && r.headers == CachedJson)
            && (r.status == 500 <==> batch(0).None? && batch(1).None?)
            && (r.status == 200 || r.status == 500)
  {
    var valid := ValidSymbols(items);
    var g := Attempts(valid, batch, now);
    BatchResponse(items, batch, nodeEnv, now, start, finish);
    assert Resolve(Policy).maxRetries == 2;
    if batch(0).Some? {
      assert g(0).Success?;
      assert FirstSuccess(g, 1) == Some(0);
      FirstSuccessStable(g, 1, 2);
    } else if batch(1).Some? {
      assert g(0).Failure? && g(1).Success?;
      assert FirstSuccess(g, 2) == Some(1);
    } else {
      assert g(0).Failure? && g(1).Failure?;
      assert FirstSuccess(g, 2).None?;
    }
  }

  /**
   * The retry wraps the whole batch: after a first attempt cut off by its
   * timer, every valid symbol is requested again in the second attempt, and
   * the records are that attempt's.
   */
  lemma WholeBatchRetried(items: seq<Json>, fetch: string -> Upstream, batch: nat -> Option<string -> Upstream>,
                          nodeEnv: Option<string>, now: int, start: int, finish: int)
    requires 0 < |items| <= 50 && AllStrings(items) && ValidSymbols(items) != []
    requires batch(0).None? && batch(1) == Some(fetch)
    ensures Post(JArray(items), batch, nodeEnv, now, start, finish).response.body
            == BatchBody(Fulfilled(BatchResults(ValidSymbols(items), fetch, now)),
                         |Fulfilled(BatchResults(ValidSymbols(items), fetch, now))|, now)
  {
    var valid := ValidSymbols(items);
    var g := Attempts(valid, batch, now);
    BatchResponse(items, batch, nodeEnv, now, start, finish);
    assert Resolve(Policy).maxRetries == 2;
    assert g(0).Failure? && g(1).Success?;
    assert FirstSuccess(g, 2) == Some(1);
  }

  /** Past the guards, the response is the one for how the retried batch settles. */
  lemma BatchResponse(items: seq<Json>, batch: nat -> Option<string -> Upstream>, nodeEnv: Option<string>,
                      now: int, start: int, finish: int)
    requires 0 < |items| <= 50 && AllStrings(items) && ValidSymbols(items) != []
    ensures Post(JArray(items), batch, nodeEnv, now, start, finish).response
            == BatchAnswer(RetryResult(Attempts(ValidSymbols(items), batch, now), Resolve(Policy).maxRetries),
                           nodeEnv, now, finish - start)
  {
    var symbols := JArray(items);
    assert symbols.JArray? && |symbols.items| != 0;
    assert !(|symbols.items| > MaxSymbols);
    assert AllStrings(symbols.items);
    var valid := ValidSymbols(symbols.items);
    assert valid != [];
  }
}
