/**
 * The retrieval-augmented answer service: keyword retrieval over a list of
 * strategies, the augmenter's risk-preference rule and answer selection, and
 * the query router that combines them.
 *
 * The answers are modelled by what they present (which strategy, which
 * alerts, which sign prefix); the number formatting inside their text is
 * not part of this model.
 */
module Rag {
  import opened Wrappers
  import opened Seqs
  import opened Js
  import Marketplace

  type Strategy = Marketplace.Strategy

  datatype PortfolioMetrics = PortfolioMetrics(totalValue: real, dayChange: real, weekChange: real, monthChange: real)

  datatype Alert = Alert(id: string, kind: string, symbol: Option<string>, priority: string,
                         message: string, createdAt: int)

  /** The retrieval context; market data is always empty, so it is not represented. */
  datatype Context = Context(strategies: seq<Strategy>, portfolioMetrics: PortfolioMetrics, recentAlerts: seq<Alert>)

  /** What `formatContextForLLM` lays out. */
  datatype Digest = Digest(dayPrefix: string, topStrategies: seq<Strategy>, alerts: string)

  /** The three kinds of answer the router produces. */
  datatype Answer =
    | StrategyAdvice(pick: Option<Strategy>)
    | PortfolioAnalysis(metrics: PortfolioMetrics, following: nat, alertCount: nat)
    | ContextDigest(digest: Digest)

  datatype Response = Response(answer: Answer, sources: seq<string>, confidence: real, context: Context)

  const PerformanceKeywords := ["performance", "return", "winrate", "sharpe", "drawdown", "profit"]
  const RiskKeywords := ["risk", "conservative", "aggressive", "volatile", "drawdown"]
  /** The advice text when no strategy matches the preference. */
  const NoMatchText := "No matching strategies found. Try adjusting your search criteria."
  const NoAlertsText := "No recent alerts"

  // ------------------------------------------------------------ retrieval

  /** `keywords.some(kw => query.toLowerCase().includes(kw))`. */
  predicate Mentions(query: string, keywords: seq<string>)
  {
    exists i :: 0 <= i < |keywords| && Includes(ToLower(query), keywords[i])
  }

  /** The text a strategy is searched in: its lower-cased fields, one per indented line. */
  function SearchText(s: Strategy): string
  {
    "\n        " + ToLower(s.title) + "\n        " + ToLower(s.description)
    + "\n        " + ToLower(Join(s.tags, " ")) + "\n        " + s.riskLevel + "\n      "
  }

  predicate Matches(query: string, s: Strategy)
  {
    Includes(SearchText(s), ToLower(query))
  }

  /** `retrieveStrategies`: the strategies whose search text contains the query, in input order. */
  function RetrieveStrategies(query: string, strategies: seq<Strategy>): (r: seq<Strategy>)
    ensures |r| <= |strategies|
    ensures forall s :: s in r <==> s in strategies && Matches(query, s)
    ensures Subsequence(r, strategies)
    ensures r == Filter(strategies, (s: Strategy) => Matches(query, s))
  {
    var r := Filter(strategies, (s: Strategy) => Matches(query, s));
    FilterSubsequence(strategies, (s: Strategy) => Matches(query, s));
    forall s ensures s in r <==> s in strategies && Matches(query, s) {
      FilterIn(strategies, (s: Strategy) => Matches(query, s), s);
    }
    r
  }

  function AvgReturn(s: Strategy): real
  {
    s.performance.avgReturn
  }

  /**
   * The order `retrievePerformanceMetrics` leaves the caller's array in:
   * sorted by average return, descending and stably
   * (`PerformanceOrderStable`), when the query asks about performance;
   * untouched otherwise.
   */
  function PerformanceOrder(query: string, strategies: seq<Strategy>): (r: seq<Strategy>)
    ensures multiset(r) == multiset(strategies)
    ensures Mentions(query, PerformanceKeywords) ==> SortedDesc(r, AvgReturn)
    ensures !Mentions(query, PerformanceKeywords) ==> r == strategies
  {
    if Mentions(query, PerformanceKeywords) then SortDesc(strategies, AvgReturn) else strategies
  }

  /**
   * `retrievePerformanceMetrics`: [] without a performance keyword;
   * otherwise the caller's array, sorted in place and returned.
   */
  method RetrievePerformanceMetrics(query: string, a: array<Strategy>) returns (r: seq<Strategy>)
    modifies a
    ensures a[..] == PerformanceOrder(query, old(a[..]))
    ensures r == if Mentions(query, PerformanceKeywords) then a[..] else []
  {
    if !Mentions(query, PerformanceKeywords) {
      return [];
    }
    var sorted := SortDesc(a[..], AvgReturn);
    assert |sorted| == |multiset(sorted)| == |multiset(a[..])| == a.Length;
    var i := 0;
    while i < a.Length
      invariant 0 <= i <= a.Length
      invariant forall j :: 0 <= j < i ==> a[j] == sorted[j]
    {
      a[i] := sorted[i];
      i := i + 1;
    }
    assert a[..] == sorted;
    r := a[..];
  }

  /** The risk level a risk query asks for: 'low' wins over 'high'; neither means every level. */
  function RequestedRisk(query: string): Option<string>
  {
    if Includes(ToLower(query), "low") then Some("low")
    else if Includes(ToLower(query), "high") then Some("high")
    else None
  }

  /** `retrieveRiskData`: [] without a risk keyword, else the strategies of the requested level. */
  function RetrieveRiskData(query: string, strategies: seq<Strategy>): (r: seq<Strategy>)
    ensures !Mentions(query, RiskKeywords) ==> r == []
    ensures forall s :: s in r <==>
              && Mentions(query, RiskKeywords) && s in strategies
              && (RequestedRisk(query).Some? ==> s.riskLevel == RequestedRisk(query).value)
  {
    if !Mentions(query, RiskKeywords) then [] else
      var want := RequestedRisk(query);
      var r := Filter(strategies, (s: Strategy) => want.None? || s.riskLevel == want.value);
      forall s ensures s in r <==> s in strategies && (want.Some? ==> s.riskLevel == want.value) {
        FilterIn(strategies, (s: Strategy) => want.None? || s.riskLevel == want.value, s);
      }
      r
  }

  /** `buildContext`: zero metrics and no alerts unless supplied. */
  function BuildContext(strategies: seq<Strategy>, portfolio: Option<PortfolioMetrics>,
                        alerts: Option<seq<Alert>>): (c: Context)
    ensures c.strategies == strategies
    ensures portfolio.None? ==> c.portfolioMetrics == PortfolioMetrics(0.0, 0.0, 0.0, 0.0)
    ensures portfolio.Some? ==> c.portfolioMetrics == portfolio.value
    ensures alerts.None? ==> c.recentAlerts == []
    ensures alerts.Some? ==> c.recentAlerts == alerts.value
  {
    Context(strategies,
            if portfolio.Some? then portfolio.value else PortfolioMetrics(0.0, 0.0, 0.0, 0.0),
            if alerts.Some? then alerts.value else [])
  }

  // --------------------------------------------------------- augmentation

  /** `extractRiskPreference`: the first phrase group found, in a fixed order, decides. */
  function ExtractRiskPreference(query: string): (pref: Option<string>)
    ensures pref == Some("low") <==>
              Includes(ToLower(query), "conservative") || Includes(ToLower(query), "low risk")
    ensures pref == Some("high") <==>
              && !(Includes(ToLower(query), "conservative") || Includes(ToLower(query), "low risk"))
              && (Includes(ToLower(query), "aggressive") || Includes(ToLower(query), "high risk"))
    ensures pref == Some("medium") <==>
              && !(Includes(ToLower(query), "conservative") || Includes(ToLower(query), "low risk"))
              && !(Includes(ToLower(query), "aggressive") || Includes(ToLower(query), "high risk"))
              && (Includes(ToLower(query), "balanced") || Includes(ToLower(query), "medium"))
    ensures pref.None? <==>
              && !Includes(ToLower(query), "conservative") && !Includes(ToLower(query), "low risk")
              && !Includes(ToLower(query), "aggressive") && !Includes(ToLower(query), "high risk")
              && !Includes(ToLower(query), "balanced") && !Includes(ToLower(query), "medium")
  {
    var q := ToLower(query);
    if Includes(q, "conservative") || Includes(q, "low risk") then Some("low")
    else if Includes(q, "aggressive") || Includes(q, "high risk") then Some("high")
    else if Includes(q, "balanced") || Includes(q, "medium") then Some("medium")
    else None
  }

  predicate Suits(pref: Option<string>, s: Strategy)
  {
    pref.None? || s.riskLevel == pref.value
  }

  /** The first strategy that suits the preference. */
  function FirstSuiting(pref: Option<string>, strategies: seq<Strategy>): (pick: Option<nat>)
    ensures pick.None? <==> forall i :: 0 <= i < |strategies| ==> !Suits(pref, strategies[i])
    ensures pick.Some? ==> pick.value < |strategies| && Suits(pref, strategies[pick.value])
    ensures pick.Some? ==> forall j :: 0 <= j < pick.value ==> !Suits(pref, strategies[j])
  {
    if strategies == [] then None
    else if Suits(pref, strategies[0]) then Some(0)
    else
      var rest := FirstSuiting(pref, strategies[1..]);
      if rest.None? then None else Some(rest.value + 1)
  }

  /**
   * `generateStrategyRecommendation`: the first context strategy at the
   * preferred risk level (any level without a preference), or none, which
   * the source reports with `NoMatchText`.
   */
  function Recommendation(query: string, context: Context): (pick: Option<Strategy>)
    ensures pick.None? <==>
              forall s :: s in context.strategies ==> !Suits(ExtractRiskPreference(query), s)
    ensures pick.Some? ==>
              exists i :: 0 <= i < |context.strategies| && context.strategies[i] == pick.value
                          && Suits(ExtractRiskPreference(query), pick.value)
                          && forall j :: 0 <= j < i ==> !Suits(ExtractRiskPreference(query), context.strategies[j])
  {
    var k := FirstSuiting(ExtractRiskPreference(query), context.strategies);
    if k.None? then None else Some(context.strategies[k.value])
  }

  /** `'+'` for a change that is zero or positive. */
  function SignPrefix(x: real): string
  {
    if x >= 0.0 then "+" else ""
  }

  function AlertLine(a: Alert): (line: string)
    ensures |line| > 0
  {
    "- [" + a.priority + "] " + a.message
  }

  function AlertLines(alerts: seq<Alert>): (lines: seq<string>)
    ensures |lines| == |alerts|
    ensures forall i :: 0 <= i < |alerts| ==> lines[i] == AlertLine(alerts[i])
  {
    if alerts == [] then [] else [AlertLine(alerts[0])] + AlertLines(alerts[1..])
  }

  /** A join whose first line is non-empty starts with that line's first character. */
  lemma JoinNonEmpty(lines: seq<string>, sep: string)
    requires lines != [] && |lines[0]| > 0
    ensures |Join(lines, sep)| > 0 && Join(lines, sep)[0] == lines[0][0]
  {
  }

  /**
   * `formatContextForLLM`: at most five strategies and at most three alerts
   * (the fallback text when there are none), after the day-change sign.
   */
  function FormatContextForLLM(context: Context): (d: Digest)
    ensures |d.topStrategies| == Min(5, |context.strategies|)
    ensures d.topStrategies == context.strategies[..|d.topStrategies|]
    ensures d.alerts == NoAlertsText <==> context.recentAlerts == []
    ensures context.recentAlerts != [] ==>
              d.alerts == Join(AlertLines(context.recentAlerts[..Min(3, |context.recentAlerts|)]), "\n")
    ensures d.dayPrefix == "+" <==> context.portfolioMetrics.dayChange >= 0.0
  {
    var top := context.strategies[..Min(5, |context.strategies|)];
    var lines := AlertLines(context.recentAlerts[..Min(3, |context.recentAlerts|)]);
    var text := Join(lines, "\n");
    assert lines != [] ==> text != "" && text[0] == '-' by {
      if lines != [] {
        JoinNonEmpty(lines, "\n");
      }
    }
    Digest(SignPrefix(context.portfolioMetrics.dayChange), top, if text == "" then NoAlertsText else text)
  }

  /** Only the three most recent alerts reach the digest. */
  lemma AlertsCapped(context: Context)
    requires |context.recentAlerts| > 3
    ensures FormatContextForLLM(context).alerts
            == FormatContextForLLM(context.(recentAlerts := context.recentAlerts[..3])).alerts
  {
    assert context.recentAlerts[..3][..Min(3, 3)] == context.recentAlerts[..3];
  }

  function Min(a: int, b: int): int
  {
    if a <= b then a else b
  }

  // -------------------------------------------------------------- routing

  /** `min(0.95, merged / max(total, 1) * 0.8 + 0.5)`. */
  function Confidence(merged: nat, total: nat): (c: real)
    ensures 0.5 <= c <= 0.95
    ensures 1 <= total <= merged ==> c == 0.95
  {
    var d := if total >= 1 then total as real else 1.0;
    var ratio := merged as real / d;
    assert ratio * d == merged as real;
    assert ratio >= 0.0;
    assert 1 <= total <= merged ==> ratio >= 1.0 by {
      var extra := (merged as real - d) / d;
      assert d / d == 1.0;
      assert ratio == d / d + extra;
      assert 1 <= total <= merged ==> extra >= 0.0;
    }
    if ratio * 0.8 + 0.5 <= 0.95 then ratio * 0.8 + 0.5 else 0.95
  }

  /** The answer and its sources, routed on 'recommend', then 'portfolio'. */
  function Route(question: string, context: Context): (r: (Answer, seq<string>))
    ensures r.0.StrategyAdvice? <==> Includes(ToLower(question), "recommend")
    ensures r.0.StrategyAdvice? <==> r.1 == ["strategies", "performance-metrics"]
    ensures r.0.PortfolioAnalysis? <==> r.1 == ["portfolio-metrics", "alerts"]
    ensures r.0.ContextDigest? <==> r.1 == ["all-data"]
  {
    var q := ToLower(question);
    if Includes(q, "recommend") then
      (StrategyAdvice(Recommendation(question, context)), ["strategies", "performance-metrics"])
    else if Includes(q, "portfolio") then
      (PortfolioAnalysis(context.portfolioMetrics, |context.strategies|, |context.recentAlerts|),
       ["portfolio-metrics", "alerts"])
    else
      (ContextDigest(FormatContextForLLM(context)), ["all-data"])
  }

  /**
   * `Array.from(new Set(results.flat()))` over the three retrievals: text
   * search on the array as given, then the performance retrieval (which
   * sorts the array), then the risk retrieval on the sorted array.
   */
  function Merged(question: string, strategies: seq<Strategy>): (r: seq<Strategy>)
    ensures Distinct(r)
  {
    var arranged := PerformanceOrder(question, strategies);
    Dedup(RetrieveStrategies(question, strategies)
          + (if Mentions(question, PerformanceKeywords) then arranged else [])
          + RetrieveRiskData(question, arranged))
  }

  /**
   * `RAGService.query` as a function of the caller's strategies before the
   * call. The three retrievals run in order, so the first sees the array
   * unsorted and the third sees it after the performance retrieval sorted
   * it; the answer is built from the (possibly sorted) array too.
   */
  function QueryResult(question: string, strategies: seq<Strategy>, portfolio: Option<PortfolioMetrics>,
                       alerts: Option<seq<Alert>>): (r: Response)
    ensures 0.5 <= r.confidence <= 0.95
    ensures Distinct(r.context.strategies)
    ensures r.answer.StrategyAdvice? <==> Includes(ToLower(question), "recommend")
  {
    var merged := Merged(question, strategies);
    var context := BuildContext(PerformanceOrder(question, strategies), portfolio, alerts);
    var (answer, sources) := Route(question, context);
    Response(answer, sources, Confidence(|merged|, |strategies|), context.(strategies := merged))
  }

  /** `RAGService.query`; the question is the only part of the request it reads. */
  method Query(question: string, a: array<Strategy>, portfolio: Option<PortfolioMetrics>,
               alerts: Option<seq<Alert>>) returns (resp: Response)
    modifies a
    ensures a[..] == PerformanceOrder(question, old(a[..]))
    ensures resp == QueryResult(question, old(a[..]), portfolio, alerts)
  {
    ghost var before := a[..];
    var context := BuildContext(a[..], portfolio, alerts);
    var total := a.Length;
    var byText := RetrieveStrategies(question, a[..]);
    var byPerformance := RetrievePerformanceMetrics(question, a);
    var arranged := a[..];
    assert arranged == PerformanceOrder(question, before);
    var byRisk := RetrieveRiskData(question, arranged);
    var merged := Dedup(byText + byPerformance + byRisk);
    assert merged == Merged(question, before);
    context := context.(strategies := arranged);
    assert context == BuildContext(PerformanceOrder(question, before), portfolio, alerts);
    var (answer, sources) := Route(question, context);
    resp := Response(answer, sources, Confidence(|merged|, total), context.(strategies := merged));
  }

  // ----------------------------------------------------------- properties

  /** An empty query matches every strategy. */
  lemma EmptyQueryRetrievesAll(strategies: seq<Strategy>)
    ensures RetrieveStrategies("", strategies) == strategies
  {
    forall i | 0 <= i < |strategies| ensures Matches("", strategies[i]) {
      IncludesEmpty(SearchText(strategies[i]));
    }
    FilterKeepsAll(strategies, (s: Strategy) => Matches("", s));
  }

  /** A query found in a strategy's lower-cased title, description, tags or risk level retrieves it. */
  lemma FieldMatchRetrieved(query: string, strategies: seq<Strategy>, s: Strategy)
    requires s in strategies
    requires || Includes(ToLower(s.title), ToLower(query))
             || Includes(ToLower(s.description), ToLower(query))
             || Includes(ToLower(Join(s.tags, " ")), ToLower(query))
             || Includes(s.riskLevel, ToLower(query))
    ensures s in RetrieveStrategies(query, strategies)
  {
    var q, sp := ToLower(query), "\n        ";
    var t, d, g, r := ToLower(s.title), ToLower(s.description), ToLower(Join(s.tags, " ")), s.riskLevel;
    var x1 := sp + t;
    var x2 := x1 + sp;
    var x3 := x2 + d;
    var x4 := x3 + sp;
    var x5 := x4 + g;
    var x6 := x5 + sp;
    var x7 := x6 + r;
    assert SearchText(s) == x7 + "\n      ";
    if Includes(t, q) {
      IncludesPrefixed(sp, t, q);
      IncludesSuffixed(x1, sp, q);
    }
    if Includes(x2, q) || Includes(d, q) {
      if !Includes(x2, q) {
        IncludesPrefixed(x2, d, q);
      } else {
        IncludesSuffixed(x2, d, q);
      }
      IncludesSuffixed(x3, sp, q);
    }
    if Includes(x4, q) || Includes(g, q) {
      if !Includes(x4, q) {
        IncludesPrefixed(x4, g, q);
      } else {
        IncludesSuffixed(x4, g, q);
      }
      IncludesSuffixed(x5, sp, q);
    }
    if !Includes(x6, q) {
      IncludesPrefixed(x6, r, q);
    } else {
      IncludesSuffixed(x6, r, q);
    }
    IncludesSuffixed(x7, "\n      ", q);
  }

  /** A risk query naming both 'low' and 'high' returns only low-risk strategies. */
  lemma LowRiskWins(query: string, strategies: seq<Strategy>, s: Strategy)
    requires Includes(ToLower(query), "low")
    requires s in RetrieveRiskData(query, strategies)
    ensures s.riskLevel == "low"
  {
  }

  /** 'conservative' outranks 'aggressive' when a query names both. */
  lemma ConservativeOutranksAggressive(query: string)
    requires Includes(ToLower(query), "conservative") && Includes(ToLower(query), "aggressive")
    ensures ExtractRiskPreference(query) == Some("low")
  {
  }

  /** The router's sources, by the first routing word the question contains. */
  lemma QuerySources(question: string, strategies: seq<Strategy>, portfolio: Option<PortfolioMetrics>,
                     alerts: Option<seq<Alert>>)
    ensures var r := QueryResult(question, strategies, portfolio, alerts);
            && (Includes(ToLower(question), "recommend") ==>
                  r.sources == ["strategies", "performance-metrics"] && r.answer.StrategyAdvice?)
            && (!Includes(ToLower(question), "recommend") && Includes(ToLower(question), "portfolio") ==>
                  r.sources == ["portfolio-metrics", "alerts"] && r.answer.PortfolioAnalysis?)
            && (!Includes(ToLower(question), "recommend") && !Includes(ToLower(question), "portfolio") ==>
                  r.sources == ["all-data"] && r.answer.ContextDigest?)
  {
  }

  /**
   * The returned context holds each retrieved strategy once, every one of
   * them from the caller's list, and every strategy the text search found.
   */
  lemma MergedStrategies(question: string, strategies: seq<Strategy>)
    ensures var merged := Merged(question, strategies);
            && Distinct(merged)
            && (forall s :: s in merged ==> s in strategies)
            && (forall s :: s in strategies && Matches(question, s) ==> s in merged)
            && (forall s :: s in merged <==>
                  || s in RetrieveStrategies(question, strategies)
                  || (Mentions(question, PerformanceKeywords) && s in strategies)
                  || s in RetrieveRiskData(question, strategies))
  {
    var byText := RetrieveStrategies(question, strategies);
    var arranged := PerformanceOrder(question, strategies);
    var byPerformance := if Mentions(question, PerformanceKeywords) then arranged else [];
    var byRisk := RetrieveRiskData(question, arranged);
    var all := byText + byPerformance + byRisk;
    var merged := Merged(question, strategies);
    assert merged == Dedup(all);
    forall s ensures s in arranged <==> s in strategies {
      assert s in arranged <==> s in multiset(arranged);
      assert s in strategies <==> s in multiset(strategies);
    }
    forall s ensures s in merged <==> s in all {
      if s in merged {
        var i :| 0 <= i < |merged| && merged[i] == s;
      }
      if s in all {
        var i :| 0 <= i < |all| && all[i] == s;
      }
    }
    forall s | s in strategies && Matches(question, s) ensures s in all {
      assert s in byText;
    }
  }

  /** Strategies with equal average returns keep their input order through the sort. */
  lemma PerformanceOrderStable(query: string, strategies: seq<Strategy>, k: real)
    ensures Filter(PerformanceOrder(query, strategies), KeyIs(AvgReturn, k))
            == Filter(strategies, KeyIs(AvgReturn, k))
  {
    SortDescStable(strategies, AvgReturn, k);
  }

  /** The first element suiting a preference in a descending list has the largest key among those suiting it. */
  lemma {:induction false} FirstSuitingIsBest(pref: Option<string>, sorted: seq<Strategy>, key: Strategy -> real)
    requires SortedDesc(sorted, key)
    requires FirstSuiting(pref, sorted).Some?
    ensures forall s :: s in sorted && Suits(pref, s) ==> key(s) <= key(sorted[FirstSuiting(pref, sorted).value])
  {
    var k := FirstSuiting(pref, sorted).value;
    forall s | s in sorted && Suits(pref, s) ensures key(s) <= key(sorted[k]) {
      var i :| 0 <= i < |sorted| && sorted[i] == s;
      assert i >= k;
    }
  }

  /**
   * Because the performance retrieval sorts the caller's array before the
   * answer is built, a recommendation for a question that also asks about
   * returns picks the best average return at the preferred risk level.
   */
  lemma RecommendationAfterSort(question: string, strategies: seq<Strategy>,
                                portfolio: Option<PortfolioMetrics>, alerts: Option<seq<Alert>>)
    requires Includes(ToLower(question), "recommend") && Mentions(question, PerformanceKeywords)
    ensures var answer := QueryResult(question, strategies, portfolio, alerts).answer;
            answer.pick.Some? ==>
              forall s :: s in strategies && Suits(ExtractRiskPreference(question), s) ==>
                AvgReturn(s) <= AvgReturn(answer.pick.value)
  {
    var arranged := PerformanceOrder(question, strategies);
    var pref := ExtractRiskPreference(question);
    var context := BuildContext(arranged, portfolio, alerts);
    assert QueryResult(question, strategies, portfolio, alerts).answer
        == StrategyAdvice(Recommendation(question, context));
    if FirstSuiting(pref, arranged).Some? {
      FirstSuitingIsBest(pref, arranged, AvgReturn);
      forall s | s in strategies ensures s in arranged {
        assert s in multiset(strategies);
      }
    }
  }
}
