/**
 * The scraper configuration cell: process-wide tunables with merge-update
 * and reset to the compiled-in defaults. Values are never validated.
 */
module ScraperConfig {
  import opened Wrappers

  datatype ApiKeys = ApiKeys(finnhub: Option<string>, alphaVantage: Option<string>, polygonIO: Option<string>)

  datatype Config = Config(
    rateLimitDelay: int,          // milliseconds between requests
    maxConcurrentRequests: int,   // declared, but read by no fetch path
    requestTimeout: int,          // milliseconds
    maxRetries: int,
    cacheEnabled: bool,
    cacheTTL: int,                // seconds
    loggingEnabled: bool,
    debugMode: bool,
    apiKeys: ApiKeys)

  /** The process environment the defaults are read from when the module loads. */
  datatype Env = Env(nodeEnv: Option<string>, finnhubKey: Option<string>,
                     alphaVantageKey: Option<string>, polygonKey: Option<string>)

  /** `DEFAULT_SCRAPER_CONFIG`. */
  function Defaults(env: Env): Config
  {
    Config(
      rateLimitDelay := 500,
      maxConcurrentRequests := 5,
      requestTimeout := 10000,
      maxRetries := 3,
      cacheEnabled := true,
      cacheTTL := 300,
      loggingEnabled := true,
      debugMode := env.nodeEnv == Some("development"),
      apiKeys := ApiKeys(env.finnhubKey, env.alphaVantageKey, env.polygonKey))
  }

  /** `Partial<ScraperConfig>`: a field that is `None` is not supplied. */
  datatype PartialConfig = PartialConfig(
    rateLimitDelay: Option<int>,
    maxConcurrentRequests: Option<int>,
    requestTimeout: Option<int>,
    maxRetries: Option<int>,
    cacheEnabled: Option<bool>,
    cacheTTL: Option<int>,
    loggingEnabled: Option<bool>,
    debugMode: Option<bool>,
    apiKeys: Option<ApiKeys>)

  const NoChanges := PartialConfig(None, None, None, None, None, None, None, None, None)

  function Pick<T>(update: Option<T>, current: T): T
  {
    if update.Some? then update.value else current
  }

  /** `{ ...config, ...p }`: a shallow merge, so a supplied `apiKeys` replaces the whole record. */
  function Merge(c: Config, p: PartialConfig): Config
  {
    Config(
      Pick(p.rateLimitDelay, c.rateLimitDelay),
      Pick(p.maxConcurrentRequests, c.maxConcurrentRequests),
      Pick(p.requestTimeout, c.requestTimeout),
      Pick(p.maxRetries, c.maxRetries),
      Pick(p.cacheEnabled, c.cacheEnabled),
      Pick(p.cacheTTL, c.cacheTTL),
      Pick(p.loggingEnabled, c.loggingEnabled),
      Pick(p.debugMode, c.debugMode),
      Pick(p.apiKeys, c.apiKeys))
  }

  /** Two partial updates in a row, as one: the later one wins field by field. */
  function Then(p: PartialConfig, q: PartialConfig): PartialConfig
  {
    PartialConfig(
      if q.rateLimitDelay.Some? then q.rateLimitDelay else p.rateLimitDelay,
      if q.maxConcurrentRequests.Some? then q.maxConcurrentRequests else p.maxConcurrentRequests,
      if q.requestTimeout.Some? then q.requestTimeout else p.requestTimeout,
      if q.maxRetries.Some? then q.maxRetries else p.maxRetries,
      if q.cacheEnabled.Some? then q.cacheEnabled else p.cacheEnabled,
      if q.cacheTTL.Some? then q.cacheTTL else p.cacheTTL,
      if q.loggingEnabled.Some? then q.loggingEnabled else p.loggingEnabled,
      if q.debugMode.Some? then q.debugMode else p.debugMode,
      if q.apiKeys.Some? then q.apiKeys else p.apiKeys)
  }

  /**
   * Every supplied field takes its new value and every other field keeps its
   * old one; no value is checked (a `maxRetries` of 0 or below is stored).
   */
  lemma MergeFields(c: Config, p: PartialConfig)
    ensures p.maxRetries.Some? ==> Merge(c, p).maxRetries == p.maxRetries.value
    ensures p.maxRetries.None? ==> Merge(c, p).maxRetries == c.maxRetries
    ensures p.rateLimitDelay.Some? ==> Merge(c, p).rateLimitDelay == p.rateLimitDelay.value
    ensures p.rateLimitDelay.None? ==> Merge(c, p).rateLimitDelay == c.rateLimitDelay
    ensures p.maxConcurrentRequests.Some? ==> Merge(c, p).maxConcurrentRequests == p.maxConcurrentRequests.value
    ensures p.maxConcurrentRequests.None? ==> Merge(c, p).maxConcurrentRequests == c.maxConcurrentRequests
    ensures p.requestTimeout.Some? ==> Merge(c, p).requestTimeout == p.requestTimeout.value
    ensures p.requestTimeout.None? ==> Merge(c, p).requestTimeout == c.requestTimeout
    ensures p.cacheEnabled.Some? ==> Merge(c, p).cacheEnabled == p.cacheEnabled.value
    ensures p.cacheEnabled.None? ==> Merge(c, p).cacheEnabled == c.cacheEnabled
    ensures p.cacheTTL.Some? ==> Merge(c, p).cacheTTL == p.cacheTTL.value
    ensures p.cacheTTL.None? ==> Merge(c, p).cacheTTL == c.cacheTTL
    ensures p.loggingEnabled.Some? ==> Merge(c, p).loggingEnabled == p.loggingEnabled.value
    ensures p.loggingEnabled.None? ==> Merge(c, p).loggingEnabled == c.loggingEnabled
    ensures p.debugMode.Some? ==> Merge(c, p).debugMode == p.debugMode.value
    ensures p.debugMode.None? ==> Merge(c, p).debugMode == c.debugMode
    ensures p.apiKeys.Some? ==> Merge(c, p).apiKeys == p.apiKeys.value
    ensures p.apiKeys.None? ==> Merge(c, p).apiKeys == c.apiKeys
  {
  }

  /** An empty update changes nothing, and applying the same update twice is applying it once. */
  lemma MergeIdentityAndIdempotence(c: Config, p: PartialConfig)
    ensures Merge(c, NoChanges) == c
    ensures Merge(Merge(c, p), p) == Merge(c, p)
  {
  }

  /** Successive updates compose: the live cell only ever holds the defaults merged with the updates so far. */
  lemma MergeThen(c: Config, p: PartialConfig, q: PartialConfig)
    ensures Merge(Merge(c, p), q) == Merge(c, Then(p, q))
  {
  }

  /** The configuration singleton (`let config` in the module). */
  class ConfigStore {
    /** `DEFAULT_SCRAPER_CONFIG`. */
    var defaults: Config
    var config: Config

    constructor (env: Env)
      ensures defaults == Defaults(env) && config == defaults
    {
      defaults := Defaults(env);
      config := Defaults(env);
    }

    /** `getScraperConfig`: the value the cell holds now. */
    function Get(): (c: Config)
      reads this
      ensures c == config
    {
      config
    }

    /**
     * `setScraperConfig`: a new merged object replaces the cell's value; the
     * defaults object is not written.
     */
    method Set(p: PartialConfig)
      modifies this
      ensures config == Merge(old(config), p)
      ensures defaults == old(defaults)
    {
      config := Merge(config, p);
    }

    /** `resetScraperConfig`. */
    method Reset()
      modifies this
      ensures config == defaults
      ensures defaults == old(defaults)
    {
      config := defaults;
    }
  }

  /** After any sequence of updates, a reset gives back exactly the defaults. */
  method UpdateThenReset(env: Env, updates: seq<PartialConfig>) returns (c: Config)
    ensures c == Defaults(env)
  {
    var store := new ConfigStore(env);
    var i := 0;
    while i < |updates|
      invariant 0 <= i <= |updates|
      invariant store.defaults == Defaults(env)
    {
      store.Set(updates[i]);
      i := i + 1;
    }
    store.Reset();
    c := store.Get();
  }
}
