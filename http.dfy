/**
 * What the two scrape route handlers produce: a JSON response with a status
 * and headers, and the calls they make on the shared scrape logger.
 */
module Http {
  import opened Wrappers
  import opened Js
  import opened StockScraper
  import ScrapeLog

  datatype Body =
    | ErrorBody(error: string)
    | FailureBody(error: string, message: Option<string>, duration: int)
    | QuoteBody(quote: StockData)
    | BatchBody(data: seq<StockData>, count: nat, timestamp: int)

  datatype Response = Response(status: int, body: Body, headers: seq<(string, string)>)

  /** A call on the scrape logger, in the order the handler makes it. */
  datatype LogCall =
    | LogErrorCall(source: string, error: Fault)
    | LogStartCall(source: string, metadata: Option<ScrapeLog.Metadata>)
    | LogRetryCall(source: string, attempt: int, retryError: Option<Fault>, metadata: Option<ScrapeLog.Metadata>)
    | LogSuccessCall(source: string, duration: Option<int>, metadata: Option<ScrapeLog.Metadata>)

  datatype Handled = Handled(response: Response, logged: seq<LogCall>)

  /** The headers of a successful scrape: cacheable for five minutes, JSON. */
  const CachedJson: seq<(string, string)> := [("Cache-Control", "public, max-age=300"), ("Content-Type", "application/json")]

  const FetchFailed := "Failed to fetch stock data"

  function BadRequest(error: string): (r: Response)
    ensures r.status == 400 && r.body.ErrorBody?
  {
    Response(400, ErrorBody(error), [])
  }

  /** `error instanceof Error ? error.message : 'Unknown error'`. */
  function ErrorMessage(error: Fault): string
  {
    match error
    case ErrorObject(m) => m
    case NonError(_) => "Unknown error"
  }

  /** The 500 response: its `message` is shown only when `NODE_ENV` is 'development'. */
  function ServerError(error: Fault, nodeEnv: Option<string>, duration: int): (r: Response)
    ensures r.status == 500 && r.body.FailureBody? && r.body.error == FetchFailed
    ensures r.body.message.Some? <==> nodeEnv == Some("development")
    ensures r.body.message.Some? ==> r.body.message.value == ErrorMessage(error)
  {
    Response(500, FailureBody(FetchFailed, if nodeEnv == Some("development") then Some(ErrorMessage(error)) else None, duration), [])
  }
}
