/**
 * The quote fetcher: symbol and record validation, HTML sanitising, the
 * shaping of one upstream quote into a `StockData` record, and the
 * settle-all batch that splits per-symbol outcomes into records and failed
 * symbols. The HTTP request is a parameter: `fetch(url)` is what the upstream
 * call settles to.
 */
module StockScraper {
  import opened Wrappers
  import opened Seqs
  import opened Js

  datatype StockData = StockData(
    symbol: string,
    price: Num,
    change: Num,
    changePercent: Num,
    timestamp: int,
    source: Option<string>)

  /** `Partial<StockData>` as far as `validateStockData` looks: `None` is a missing field or one that is not a number. */
  datatype PartialStock = PartialStock(symbol: Option<string>, price: Option<Num>, change: Option<Num>)

  /** One element of the upstream quote list; `price` is what `parseFloat` makes of the raw field. */
  datatype Quote = Quote(price: Num, change: Option<Num>, changesPercentage: Option<Num>)

  /** What the upstream request settles to: a rejection, or a body whose `data` may be missing. */
  datatype Upstream = Rejected(reason: Fault) | Body(data: Option<seq<Quote>>)

  datatype NewsData = NewsData(title: string, description: string, url: string, symbol: string, publishedDate: int, source: string)

  predicate IsUpperLetter(c: char)
  {
    'A' <= c <= 'Z'
  }

  predicate IsAsciiLetter(c: char)
  {
    'A' <= c <= 'Z' || 'a' <= c <= 'z'
  }

  /** `/^[A-Z]{1,5}$/.test(symbol.toUpperCase())`. */
  predicate ValidateSymbol(symbol: string)
  {
    var u := ToUpper(symbol);
    1 <= |u| <= 5 && forall i :: 0 <= i < |u| ==> IsUpperLetter(u[i])
  }

  /** A symbol is valid iff it is 1 to 5 letters, in either case; digits and the empty string are not. */
  lemma ValidateSymbolIff(symbol: string)
    ensures ValidateSymbol(symbol) <==> 1 <= |symbol| <= 5 && forall i :: 0 <= i < |symbol| ==> IsAsciiLetter(symbol[i])
  {
    var u := ToUpper(symbol);
    assert forall i :: 0 <= i < |symbol| ==> (IsUpperLetter(u[i]) <==> IsAsciiLetter(symbol[i]));
  }

  lemma ValidateSymbolExamples()
    ensures ValidateSymbol("aapl") && ValidateSymbol("GOOGL")
    ensures !ValidateSymbol("") && !ValidateSymbol("BRK1") && !ValidateSymbol("ABCDEF")
  {
    ValidateSymbolIff("aapl");
    ValidateSymbolIff("GOOGL");
    ValidateSymbolIff("BRK1");
    assert !IsAsciiLetter("BRK1"[3]);
    ValidateSymbolIff("ABCDEF");
  }

  const MissingSymbolOrPrice := "Invalid stock data: missing symbol or price"
  const PriceNotANumber := "Invalid stock data: price is not a valid number"
  const ChangeNotANumber := "Invalid stock data: change must be a number"

  /** `validateStockData`: the message it throws, or `None` when it returns. */
  function StockDataError(d: PartialStock): (err: Option<string>)
    ensures err.None? <==> d.symbol.Some? && d.symbol.value != "" && d.price.Some? && Truthy(d.price.value)
                           && d.change.Some?
    ensures err.Some? ==> err.value in {MissingSymbolOrPrice, ChangeNotANumber}
  {
    if d.symbol.None? || d.symbol.value == "" || d.price.None? || !Truthy(d.price.value) then
      Some(MissingSymbolOrPrice)
    else if d.price.value.NaN? then
      Some(PriceNotANumber)
    else if d.change.None? then
      Some(ChangeNotANumber)
    else
      None
  }

  /**
   * A price of 0 or NaN is falsy, so both are reported as missing: the
   * not-a-number check after the first one can never fire. An infinite price
   * passes.
   */
  lemma FalsyPriceIsMissing(symbol: string, change: Option<Num>)
    ensures StockDataError(PartialStock(Some(symbol), Some(Finite(0.0)), change)) == Some(MissingSymbolOrPrice)
    ensures StockDataError(PartialStock(Some(symbol), Some(NaN), change)) == Some(MissingSymbolOrPrice)
    ensures symbol != "" ==> StockDataError(PartialStock(Some(symbol), Some(PosInf), Some(Finite(0.0)))).None?
  {
  }

  // ----------------------------------------------------------- sanitising

  /**
   * `s.replace(/<[^>]*>/g, '')`: from left to right, each `<` that has a `>`
   * somewhere after it is deleted together with everything up to the first
   * such `>`.
   */
  function StripTags(s: string): (r: string)
    ensures |r| <= |s|
    ensures forall i :: 0 <= i < |r| ==> r[i] in s
    ensures Subsequence(r, s)
    decreases |s|
  {
    if s == [] then []
    else if s[0] == '<' && '>' in s then
      var n := FirstIndex(s, '>') + 1;
      var r := StripTags(s[n..]);
      SubsequenceOfSuffix(r, s, n);
      r
    else
      var rest := StripTags(s[1..]);
      assert forall i :: 0 <= i < |rest| ==> rest[i] in s;
      var r := [s[0]] + rest;
      assert r[0] == s[0] && r[1..] == rest;
      r
  }

  /** No `<` is followed, anywhere later, by a `>`. */
  predicate NoTag(s: string)
  {
    forall i, j :: 0 <= i < j < |s| && s[i] == '<' ==> s[j] != '>'
  }

  /** After tag stripping no `<…>` remains. */
  lemma {:induction false} StripTagsLeavesNoTag(s: string)
    ensures NoTag(StripTags(s))
    decreases |s|
  {
    if s == [] {
    } else if s[0] == '<' && '>' in s {
      StripTagsLeavesNoTag(s[FirstIndex(s, '>') + 1..]);
    } else {
      StripTagsLeavesNoTag(s[1..]);
      var rest := StripTags(s[1..]);
      var r := StripTags(s);
      assert r == [s[0]] + rest;
      forall i, j | 0 <= i < j < |r| && r[i] == '<' ensures r[j] != '>' {
        if i == 0 {
          assert '>' !in s;
          assert r[j] == rest[j - 1];
          assert rest[j - 1] in s[1..];
        } else {
          assert r[i] == rest[i - 1] && r[j] == rest[j - 1];
        }
      }
    }
  }

  /** Text without `<` is left alone by tag stripping. */
  lemma {:induction false} StripTagsPlain(s: string)
    requires '<' !in s
    ensures StripTags(s) == s
    decreases |s|
  {
    if s != [] {
      StripTagsPlain(s[1..]);
    }
  }

  /** `sanitizeData`: tags out, `&nbsp;` to a space, `&amp;` to `&`, then trimmed — in that order. */
  function Sanitize(text: string): (r: string)
    ensures r == [] || (!IsSpace(r[0]) && !IsSpace(r[|r| - 1]))
  {
    var decoded := ReplaceAll(ReplaceAll(StripTags(text), "&nbsp;", " "), "&amp;", "&");
    var start := TrimStart(decoded);
    assert Trim(decoded) == start[..|Trim(decoded)|];
    Trim(decoded)
  }

  /** Text with no markup and no entity is only trimmed. */
  lemma SanitizePlain(text: string)
    requires '<' !in text && '&' !in text
    ensures Sanitize(text) == Trim(text)
  {
    StripTagsPlain(text);
    ReplaceWithoutHead(text, "&nbsp;", " ");
    ReplaceWithoutHead(text, "&amp;", "&");
  }

  /** Because `&amp;` is decoded after `&nbsp;`, an escaped `&amp;nbsp;` comes out as `&nbsp;`. */
  lemma SanitizeDecodesOnce()
    ensures Sanitize("&amp;nbsp;") == "&nbsp;"
  {
    var s := "&amp;nbsp;";
    StripTagsPlain(s);
    var stripped := StripTags(s);
    NbspStep();
    var spaced := ReplaceAll(stripped, "&nbsp;", " ");
    assert spaced == s;
    AmpStep();
    var decoded := ReplaceAll(spaced, "&amp;", "&");
    assert decoded == "&nbsp;";
    TrimStep();
    assert Sanitize(s) == Trim(decoded);
  }

  lemma NbspStep()
    ensures ReplaceAll("&amp;nbsp;", "&nbsp;", " ") == "&amp;nbsp;"
  {
    var s := "&amp;nbsp;";
    assert s[..6][1] != "&nbsp;"[1];
    assert s[1..] == "amp;nbsp;";
    assert '&' !in "amp;nbsp;";
    ReplaceWithoutHead("amp;nbsp;", "&nbsp;", " ");
  }

  lemma AmpStep()
    ensures ReplaceAll("&amp;nbsp;", "&amp;", "&") == "&nbsp;"
  {
    var s := "&amp;nbsp;";
    assert s[..5] == "&amp;";
    assert s[5..] == "nbsp;";
    assert '&' !in "nbsp;";
    ReplaceWithoutHead("nbsp;", "&amp;", "&");
  }

  lemma TrimStep()
    ensures Trim("&nbsp;") == "&nbsp;"
  {
    assert !IsSpace("&nbsp;"[0]) && !IsSpace("&nbsp;"[5]);
  }

  /** A text in which the pattern's first character never occurs is left alone. */
  lemma {:induction false} ReplaceWithoutHead(s: string, p: string, r: string)
    requires |p| > 0 && p[0] !in s
    ensures ReplaceAll(s, p, r) == s
    decreases |s|
  {
    if |s| >= |p| {
      assert s[..|p|][0] != p[0];
      ReplaceWithoutHead(s[1..], p, r);
    }
  }

  // -------------------------------------------------------------- quotes

  /** `parseFloat(x.toFixed(2))`: rounded to cents, halves away from zero; NaN and infinities pass through. */
  function Round2(x: Num): (y: Num)
    ensures x.Finite? <==> y.Finite?
    ensures !x.Finite? ==> y == x
  {
    match x
    case Finite(r) =>
      if r >= 0.0 then Finite((r * 100.0 + 0.5).Floor as real / 100.0)
      else Finite(-((-r * 100.0 + 0.5).Floor as real) / 100.0)
    case _ => x
  }

  /** Rounding keeps the sign, and moves a value by at most half a cent. */
  lemma Round2Bounds(r: real)
    ensures Round2(Finite(r)).r - r <= 0.005 && r - Round2(Finite(r)).r <= 0.005
    ensures r >= 0.0 ==> Round2(Finite(r)).r >= 0.0
    ensures r <= 0.0 ==> Round2(Finite(r)).r <= 0.0
  {
  }

  /** `x || 0` for a number that may be missing. */
  function OrZero(x: Option<Num>): (y: Num)
    ensures Truthy(y) ==> x == Some(y)
    ensures x.Some? && Truthy(x.value) ==> y == x.value
  {
    if x.Some? && Truthy(x.value) then x.value else Finite(0.0)
  }

  function QuoteUrl(upperSymbol: string): string
  {
    "https://financialmodelingprep.com/api/v3/quote/" + upperSymbol
  }

  /** `scrapeStockPrice(symbol)`, with `fetch` standing for the upstream request and `now` for `new Date()`. */
  function ScrapeStockPrice(symbol: string, fetch: string -> Upstream, now: int): (r: Result<StockData, Fault>)
    ensures r.Success? ==> ValidateSymbol(symbol) && r.value.symbol == ToUpper(symbol) && r.value.timestamp == now
  {
    if !ValidateSymbol(symbol) then Failure(ErrorObject("Invalid stock symbol format: " + symbol))
    else
      var upper := ToUpper(symbol);
      match fetch(QuoteUrl(upper))
      case Rejected(reason) => Failure(reason)
      case Body(data) =>
        if data.None? || data.value == [] then Failure(ErrorObject("No data found for symbol " + upper))
        else
          var info := data.value[0];
          var d := StockData(upper, Round2(info.price), Round2(OrZero(info.change)),
                             Round2(OrZero(info.changesPercentage)), now, Some("financialmodelingprep"));
          match StockDataError(PartialStock(Some(d.symbol), Some(d.price), Some(d.change)))
          case Some(message) => Failure(ErrorObject(message))
          case None => Success(d)
  }

  /** An invalid symbol is rejected before any request: the upstream cannot change the outcome. */
  lemma InvalidSymbolNoFetch(symbol: string, fetch1: string -> Upstream, fetch2: string -> Upstream, now: int)
    requires !ValidateSymbol(symbol)
    ensures ScrapeStockPrice(symbol, fetch1, now) == ScrapeStockPrice(symbol, fetch2, now)
    ensures ScrapeStockPrice(symbol, fetch1, now) == Failure(ErrorObject("Invalid stock symbol format: " + symbol))
  {
  }

  /**
   * A record that comes back carries the upper-cased symbol, the source
   * 'financialmodelingprep' and a truthy price; a quote whose price rounds
   * to 0 is refused as missing.
   */
  lemma ScrapedRecordShape(symbol: string, fetch: string -> Upstream, now: int)
    ensures ScrapeStockPrice(symbol, fetch, now).Success? ==>
              var d := ScrapeStockPrice(symbol, fetch, now).value;
              && ValidateSymbol(symbol)
              && d.symbol == ToUpper(symbol)
              && d.source == Some("financialmodelingprep")
              && d.timestamp == now
              && Truthy(d.price) && !d.price.NaN?
    ensures ValidateSymbol(symbol) && fetch(QuoteUrl(ToUpper(symbol))).Body?
            && fetch(QuoteUrl(ToUpper(symbol))).data.Some?
            && |fetch(QuoteUrl(ToUpper(symbol))).data.value| > 0
            && Round2(fetch(QuoteUrl(ToUpper(symbol))).data.value[0].price) == Finite(0.0)
            ==> ScrapeStockPrice(symbol, fetch, now) == Failure(ErrorObject(MissingSymbolOrPrice))
  {
    if ValidateSymbol(symbol) {
      assert ToUpper(symbol) != "";
    }
  }

  // ---------------------------------------------------------------- batch

  /** The records of the fulfilled outcomes, in input order. */
  function Fulfilled(rs: seq<Result<StockData, Fault>>): (ds: seq<StockData>)
    ensures |ds| <= |rs|
  {
    if rs == [] then []
    else Fulfilled(rs[..|rs| - 1]) + (if rs[|rs| - 1].Success? then [rs[|rs| - 1].value] else [])
  }

  /** The symbols whose outcome was a rejection, in input order. */
  function FailedSymbols(symbols: seq<string>, rs: seq<Result<StockData, Fault>>): (fs: seq<string>)
    requires |symbols| == |rs|
    ensures |fs| <= |rs|
  {
    if rs == [] then []
    else FailedSymbols(symbols[..|rs| - 1], rs[..|rs| - 1])
         + (if rs[|rs| - 1].Failure? then [symbols[|rs| - 1]] else [])
  }

  /** The settled outcome of each symbol's `scrapeStockPrice`, in input order. */
  function BatchResults(symbols: seq<string>, fetch: string -> Upstream, now: int): (rs: seq<Result<StockData, Fault>>)
    ensures |rs| == |symbols|
    ensures forall i :: 0 <= i < |symbols| ==> rs[i] == ScrapeStockPrice(symbols[i], fetch, now)
  {
    seq(|symbols|, i requires 0 <= i < |symbols| => ScrapeStockPrice(symbols[i], fetch, now))
  }

  /**
   * `scrapeMultipleStocks(symbols)`: every symbol is fetched and every
   * outcome awaited (`Promise.allSettled`); the records of the fulfilled ones
   * are returned and the rejected symbols are collected for the warning.
   */
  method ScrapeMultipleStocks(symbols: seq<string>, fetch: string -> Upstream, now: int)
      returns (successfulResults: seq<StockData>, failedSymbols: seq<string>)
    ensures successfulResults == Fulfilled(BatchResults(symbols, fetch, now))
    ensures failedSymbols == FailedSymbols(symbols, BatchResults(symbols, fetch, now))
  {
    var results := BatchResults(symbols, fetch, now);
    successfulResults, failedSymbols := [], [];
    var index := 0;
    while index < |results|
      invariant 0 <= index <= |results|
      invariant successfulResults == Fulfilled(results[..index])
      invariant failedSymbols == FailedSymbols(symbols[..index], results[..index])
    {
      PartitionStep(symbols, results, index);
      var result := results[index];
      if result.Success? {
        successfulResults := successfulResults + [result.value];
      } else {
        failedSymbols := failedSymbols + [symbols[index]];
      }
      index := index + 1;
    }
    assert results[..index] == results;
    assert symbols[..index] == symbols;
  }

  /** One more outcome adds its record, or its symbol, to the side it belongs to. */
  lemma PartitionStep(symbols: seq<string>, rs: seq<Result<StockData, Fault>>, i: nat)
    requires |symbols| == |rs| && i < |rs|
    ensures Fulfilled(rs[..i + 1]) == Fulfilled(rs[..i]) + (if rs[i].Success? then [rs[i].value] else [])
    ensures FailedSymbols(symbols[..i + 1], rs[..i + 1])
            == FailedSymbols(symbols[..i], rs[..i]) + (if rs[i].Failure? then [symbols[i]] else [])
  {
    assert rs[..i + 1][..i] == rs[..i];
    assert symbols[..i + 1][..i] == symbols[..i];
  }

  /** Every outcome lands on exactly one side: records plus failed symbols make up the input. */
  lemma {:induction false} PartitionSizes(symbols: seq<string>, rs: seq<Result<StockData, Fault>>)
    requires |symbols| == |rs|
    ensures |Fulfilled(rs)| + |FailedSymbols(symbols, rs)| == |rs|
  {
    if rs != [] {
      PartitionSizes(symbols[..|rs| - 1], rs[..|rs| - 1]);
    }
  }

  /** A record is returned iff some outcome fulfilled with it. */
  lemma {:induction false} FulfilledIff(rs: seq<Result<StockData, Fault>>, d: StockData)
    ensures d in Fulfilled(rs) <==> exists i :: 0 <= i < |rs| && rs[i] == Success(d)
  {
    if rs != [] {
      var p := rs[..|rs| - 1];
      FulfilledIff(p, d);
      assert Fulfilled(rs) == Fulfilled(p) + (if rs[|rs| - 1].Success? then [rs[|rs| - 1].value] else []);
      if exists i :: 0 <= i < |p| && p[i] == Success(d) {
        var i :| 0 <= i < |p| && p[i] == Success(d);
        assert rs[i] == Success(d);
      }
      if exists i :: 0 <= i < |rs| && rs[i] == Success(d) {
        var i :| 0 <= i < |rs| && rs[i] == Success(d);
        if i < |p| {
          assert p[i] == Success(d);
        }
      }
    }
  }

  /** A symbol is reported failed iff its outcome (at some position) was a rejection. */
  lemma {:induction false} FailedSymbolsIff(symbols: seq<string>, rs: seq<Result<StockData, Fault>>, s: string)
    requires |symbols| == |rs|
    ensures s in FailedSymbols(symbols, rs) <==> exists i :: 0 <= i < |rs| && symbols[i] == s && rs[i].Failure?
  {
    if rs != [] {
      var n := |rs| - 1;
      var ps, p := symbols[..n], rs[..n];
      FailedSymbolsIff(ps, p, s);
      assert FailedSymbols(symbols, rs) == FailedSymbols(ps, p) + (if rs[n].Failure? then [symbols[n]] else []);
      if exists i :: 0 <= i < n && ps[i] == s && p[i].Failure? {
        var i :| 0 <= i < n && ps[i] == s && p[i].Failure?;
        assert symbols[i] == s && rs[i].Failure?;
      }
      if exists i :: 0 <= i < |rs| && symbols[i] == s && rs[i].Failure? {
        var i :| 0 <= i < |rs| && symbols[i] == s && rs[i].Failure?;
        if i < n {
          assert ps[i] == s && p[i].Failure?;
        }
      }
    }
  }

  /** `scrapeFinancialNews` is a placeholder: it always returns no news. */
  function ScrapeFinancialNews(symbol: string): (news: seq<NewsData>)
    ensures |news| == 0
  {
    []
  }
}
