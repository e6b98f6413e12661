/**
 * The strategy marketplace: three in-memory tables (strategies, subscriptions
 * and reviews keyed by id) seeded with three demonstration strategies, read
 * through filtering and sorting queries and changed in place by publishing,
 * subscribing and reviewing.
 *
 * Dates are milliseconds since the epoch; the clock (`Date.now()`) and the
 * simulated backtest figures a new strategy receives are parameters.
 */
module Marketplace {
  import opened Wrappers
  import opened Seqs
  import opened Js

  datatype Condition = Condition(kind: string, symbol: string, operator: string, value: real,
                                 period: Option<int>, description: string)

  datatype Performance = Performance(totalTrades: int, winRate: real, avgReturn: real, maxDrawdown: real,
                                     sharpeRatio: real, profitFactor: real, bestTrade: real, worstTrade: real,
                                     backtestedFrom: int, backtestedTo: int)

  datatype Author = Author(name: string, email: Option<string>, avatar: Option<string>)

  datatype Strategy = Strategy(id: string, userId: string, author: Author, title: string, description: string,
                               conditions: seq<Condition>, performance: Performance, isPublic: bool,
                               subscribers: int, reputation: int, createdAt: int, updatedAt: int,
                               tags: seq<string>, riskLevel: string)

  datatype Subscription = Subscription(id: string, userId: string, strategyId: string,
                                       subscribedAt: int, status: string)

  datatype Review = Review(id: string, strategyId: string, userId: string, rating: real,
                           comment: string, createdAt: int)

  /** What a user submits to publish a strategy. */
  datatype CreateInput = CreateInput(title: string, description: string, conditions: seq<Condition>,
                                     riskLevel: string, tags: seq<string>, isPublic: bool)

  /** The optional query filters; absent filters are all `None`. */
  datatype Filters = Filters(riskLevel: Option<string>, tag: Option<string>, sortBy: Option<string>)

  const NotFound := "Strategy not found"
  const TitleTooShort := "Title must be at least 3 characters"
  const NoConditions := "Strategy must have at least one condition"
  const RatingOutOfRange := "Rating must be between 1 and 5"
  const CommentTooShort := "Comment must be at least 5 characters"

  // ------------------------------------------------------------ seed data

  const TechMomentum := Strategy(
    "strat-001", "user-demo",
    Author("Sarah Chen", Some("sarah@example.com"), Some("https://api.dicebear.com/7.x/avataaars/svg?seed=Sarah")),
    "Tech Momentum Reversal",
    "A trend-following strategy that identifies momentum reversals in tech stocks using RSI and moving average crosses.",
    [Condition("rsi", "AAPL", "<", 30.0, Some(14), "RSI drops below 30 (oversold)"),
     Condition("ma_cross", "AAPL", "cross_above", 0.0, Some(20), "Price crosses above 20-day MA")],
    Performance(45, 62.5, 3.2, 8.5, 1.8, 2.1, 12.5, -6.3, 1672531200000, 1735603200000),
    true, 342, 87, 1718409600000, 1733011200000,
    ["tech", "momentum", "rsi", "mean-reversion"], "medium")

  const DividendGrowth := Strategy(
    "strat-002", "user-demo-2",
    Author("James Rivera", Some("james@example.com"), Some("https://api.dicebear.com/7.x/avataaars/svg?seed=James")),
    "Dividend Growth Value Play",
    "Conservative strategy targeting dividend-paying stocks with low P/E ratios in stable industries.",
    [Condition("price", "JNJ", "<", 0.0, None, "P/E ratio below sector average"),
     Condition("sentiment", "JNJ", ">", 0.0, None, "Positive market sentiment")],
    Performance(28, 75.0, 8.9, 12.2, 2.3, 3.2, 28.5, -9.1, 1640995200000, 1735603200000),
    true, 521, 94, 1710028800000, 1732060800000,
    ["dividend", "value", "conservative", "long-term"], "low")

  const CryptoVolume := Strategy(
    "strat-003", "user-demo-3",
    Author("Alex Kim", Some("alex@example.com"), Some("https://api.dicebear.com/7.x/avataaars/svg?seed=Alex")),
    "Crypto Volume Spike",
    "High-risk strategy capitalizing on sudden volume spikes in major cryptocurrencies.",
    [Condition("volume", "BTC", ">", 2.0, None, "Volume above 2x average")],
    Performance(156, 48.7, 5.1, 35.8, 0.9, 1.4, 89.2, -42.5, 1685577600000, 1735603200000),
    true, 187, 71, 1724284800000, 1733788800000,
    ["crypto", "volatility", "high-risk", "volume"], "high")

  // ------------------------------------------------------ specification

  /** `Object.values(table)`: the values in key insertion order. */
  function ValuesOf<V>(order: seq<string>, m: map<string, V>): (vs: seq<V>)
    requires forall k :: k in order ==> k in m
    ensures |vs| == |order|
    ensures forall i :: 0 <= i < |order| ==> vs[i] == m[order[i]]
  {
    if order == [] then [] else [m[order[0]]] + ValuesOf(order[1..], m)
  }

  /** A filter string takes effect only when it is truthy (present and non-empty). */
  predicate Given(f: Option<string>)
  {
    f.Some? && f.value != ""
  }

  /** What the three filters of `getPublicStrategies` ask of one strategy together. */
  predicate Wanted(f: Filters, s: Strategy)
  {
    && s.isPublic
    && (Given(f.riskLevel) ==> s.riskLevel == f.riskLevel.value)
    && (Given(f.tag) ==> f.tag.value in s.tags)
  }

  /** The three filters `getPublicStrategies` applies in turn, before any sorting:
      one filter on all three conditions, so the input order is kept. */
  function Selected(all: seq<Strategy>, f: Filters): (r: seq<Strategy>)
    ensures |r| <= |all|
    ensures r == Filter(all, (s: Strategy) => Wanted(f, s))
    ensures Subsequence(r, all)
    ensures forall s :: s in r <==>
              && s in all && s.isPublic
              && (Given(f.riskLevel) ==> s.riskLevel == f.riskLevel.value)
              && (Given(f.tag) ==> f.tag.value in s.tags)
  {
    var pub := Filter(all, (s: Strategy) => s.isPublic);
    var risk := if Given(f.riskLevel) then Filter(pub, (s: Strategy) => s.riskLevel == f.riskLevel.value) else pub;
    var tagged := if Given(f.tag) then Filter(risk, (s: Strategy) => f.tag.value in s.tags) else risk;
    forall s ensures s in tagged <==>
      && s in all && s.isPublic
      && (Given(f.riskLevel) ==> s.riskLevel == f.riskLevel.value)
      && (Given(f.tag) ==> f.tag.value in s.tags)
    {
      FilterIn(all, (s: Strategy) => s.isPublic, s);
      if Given(f.riskLevel) {
        FilterIn(pub, (s: Strategy) => s.riskLevel == f.riskLevel.value, s);
      }
      if Given(f.tag) {
        FilterIn(risk, (s: Strategy) => f.tag.value in s.tags, s);
      }
    }
    var pubRisk := (s: Strategy) => s.isPublic && (Given(f.riskLevel) ==> s.riskLevel == f.riskLevel.value);
    var wanted := (s: Strategy) => Wanted(f, s);
    assert risk == Filter(all, pubRisk) by {
      if Given(f.riskLevel) {
        FilterFilter(all, (s: Strategy) => s.isPublic, (s: Strategy) => s.riskLevel == f.riskLevel.value, pubRisk);
      } else {
        FilterSame(all, (s: Strategy) => s.isPublic, pubRisk);
      }
    }
    assert tagged == Filter(all, wanted) by {
      if Given(f.tag) {
        FilterFilter(all, pubRisk, (s: Strategy) => f.tag.value in s.tags, wanted);
      } else {
        FilterSame(all, pubRisk, wanted);
      }
    }
    FilterSubsequence(all, wanted);
    tagged
  }

  /** The sort key `sortBy` names; any other value leaves the order alone. */
  function SortKey(sortBy: Option<string>): Option<Strategy -> real>
  {
    if sortBy == Some("reputation") then Some((s: Strategy) => s.reputation as real)
    else if sortBy == Some("subscribers") then Some((s: Strategy) => s.subscribers as real)
    else if sortBy == Some("recent") then Some((s: Strategy) => s.createdAt as real)
    else None
  }

  /**
   * `getPublicStrategies(filters)` over the strategies in table order: the
   * selected strategies, sorted by the named key, descending and stably
   * (`PublicStrategiesStable`), or in table order when there is no key.
   */
  function PublicStrategies(all: seq<Strategy>, f: Filters): (r: seq<Strategy>)
    ensures multiset(r) == multiset(Selected(all, f))
    ensures forall s :: s in r <==>
              && s in all && s.isPublic
              && (Given(f.riskLevel) ==> s.riskLevel == f.riskLevel.value)
              && (Given(f.tag) ==> f.tag.value in s.tags)
    ensures SortKey(f.sortBy).Some? ==> SortedDesc(r, SortKey(f.sortBy).value)
    ensures SortKey(f.sortBy).None? ==> r == Selected(all, f)
  {
    var sel := Selected(all, f);
    var r := if SortKey(f.sortBy).Some? then SortDesc(sel, SortKey(f.sortBy).value) else sel;
    assert forall s :: s in r <==> s in multiset(r);
    r
  }

  /** Why `publishStrategy` refuses an input, checked in the source's order. */
  function PublishError(input: CreateInput): (e: Option<string>)
    ensures e == Some(TitleTooShort) <==> Utf16Length(Trim(input.title)) < 3
    ensures e == Some(NoConditions) <==> Utf16Length(Trim(input.title)) >= 3 && input.conditions == []
    ensures e.None? <==> Utf16Length(Trim(input.title)) >= 3 && input.conditions != []
  {
    if Utf16Length(Trim(input.title)) < 3 then Some(TitleTooShort)
    else if |input.conditions| == 0 then Some(NoConditions)
    else None
  }

  /** One year of 365 days, in milliseconds. */
  const YearMs: int := 365 * 24 * 60 * 60 * 1000

  /**
   * The strategy `publishStrategy` stores: public fields from the input, fresh
   * counters, and the simulated figures backtested over the year up to `now`.
   */
  function Published(userId: string, input: CreateInput, now: int, simulated: Performance): (s: Strategy)
    ensures s.id == "strat-" + IntToString(now) && s.userId == userId
    ensures s.author == Author("Anonymous User", None, None)
    ensures s.subscribers == 0 && s.reputation == 50
    ensures s.createdAt == now && s.updatedAt == now
    ensures s.title == input.title && s.description == input.description
    ensures s.conditions == input.conditions && s.tags == input.tags
    ensures s.riskLevel == input.riskLevel && s.isPublic == input.isPublic
    ensures s.performance.backtestedTo == now
    ensures s.performance.backtestedFrom == now - 31536000000
    ensures s.performance.totalTrades == simulated.totalTrades && s.performance.winRate == simulated.winRate
    ensures s.performance.avgReturn == simulated.avgReturn && s.performance.maxDrawdown == simulated.maxDrawdown
    ensures s.performance.sharpeRatio == simulated.sharpeRatio && s.performance.profitFactor == simulated.profitFactor
    ensures s.performance.bestTrade == simulated.bestTrade && s.performance.worstTrade == simulated.worstTrade
  {
    var performance := simulated.(backtestedFrom := now - YearMs, backtestedTo := now);
    Strategy("strat-" + IntToString(now), userId, Author("Anonymous User", None, None),
             input.title, input.description, input.conditions, performance, input.isPublic,
             0, 50, now, now, input.tags, input.riskLevel)
  }

  /** Why `leaveReview` refuses a review, before the strategy is looked up. */
  function ReviewError(rating: real, comment: string): (e: Option<string>)
    ensures e.None? <==> 1.0 <= rating <= 5.0 && Utf16Length(Trim(comment)) >= 5
    ensures e == Some(RatingOutOfRange) <==> rating < 1.0 || rating > 5.0
  {
    if rating < 1.0 || rating > 5.0 then Some(RatingOutOfRange)
    else if Utf16Length(Trim(comment)) < 5 then Some(CommentTooShort)
    else None
  }

  function SumRatings(reviews: seq<Review>): real
  {
    if reviews == [] then 0.0 else SumRatings(reviews[..|reviews| - 1]) + reviews[|reviews| - 1].rating
  }

  /** `Math.round(x)`: the nearest integer, halves rounded up. */
  function Round(x: real): int
  {
    (x + 0.5).Floor
  }

  /** The reputation a non-empty review list gives: `Math.round(mean rating / 5 * 100)`. */
  function Reputation(reviews: seq<Review>): (rep: int)
    requires reviews != []
    ensures RatingsInRange(reviews) ==> 20 <= rep <= 100
  {
    var mean := SumRatings(reviews) / (|reviews| as real);
    assert RatingsInRange(reviews) ==> 1.0 <= mean <= 5.0 by {
      if RatingsInRange(reviews) {
        SumRatingsBounds(reviews);
        QuotientBounds(SumRatings(reviews), |reviews| as real, 1.0, 5.0);
      }
    }
    Round(mean / 5.0 * 100.0)
  }

  predicate RatingsInRange(reviews: seq<Review>)
  {
    forall i :: 0 <= i < |reviews| ==> 1.0 <= reviews[i].rating <= 5.0
  }

  // ----------------------------------------------------- table invariants

  /** A table and the insertion order of its keys: each key exactly once. */
  ghost predicate Table<V>(m: map<string, V>, order: seq<string>)
  {
    Distinct(order) && forall k :: k in m <==> k in order
  }

  /** Storing under a key keeps the key order a faithful record of the table. */
  lemma TableInsert<V>(m: map<string, V>, order: seq<string>, k: string, v: V)
    requires Table(m, order)
    ensures Table(m[k := v], if k in m then order else order + [k])
  {
  }

  ghost predicate ReputationsInRange(strategies: map<string, Strategy>)
  {
    forall k :: k in strategies ==> 0 <= strategies[k].reputation <= 100
  }

  /** Reviews are filed under a known strategy, are about it and are rated 1 to 5. */
  ghost predicate ReviewsFiled(reviews: map<string, seq<Review>>, strategies: map<string, Strategy>)
  {
    forall k :: k in reviews ==>
      && k in strategies
      && RatingsInRange(reviews[k])
      && forall i :: 0 <= i < |reviews[k]| ==> reviews[k][i].strategyId == k
  }

  /** The store's invariant over its three tables and the two key orders. */
  ghost predicate Consistent(strategies: map<string, Strategy>, order: seq<string>,
                             subscriptions: map<string, Subscription>, subscriptionOrder: seq<string>,
                             reviews: map<string, seq<Review>>)
  {
    && Table(strategies, order)
    && Table(subscriptions, subscriptionOrder)
    && ReputationsInRange(strategies)
    && ReviewsFiled(reviews, strategies)
  }

  /** Publishing a strategy with a reputation in range keeps the store consistent. */
  lemma PublishKeepsConsistent(strategies: map<string, Strategy>, order: seq<string>,
                               subscriptions: map<string, Subscription>, subscriptionOrder: seq<string>,
                               reviews: map<string, seq<Review>>, s: Strategy)
    requires Consistent(strategies, order, subscriptions, subscriptionOrder, reviews)
    requires 0 <= s.reputation <= 100
    ensures Consistent(strategies[s.id := s], if s.id in strategies then order else order + [s.id],
                       subscriptions, subscriptionOrder, reviews)
  {
    TableInsert(strategies, order, s.id, s);
  }

  /** An active subscription of the user to the strategy, made at `now`. */
  function NewSubscription(userId: string, strategyId: string, now: int): (sub: Subscription)
    ensures sub.userId == userId && sub.strategyId == strategyId && sub.subscribedAt == now
    ensures sub.status == "active" && sub.id == "sub-" + userId + "-" + strategyId
  {
    Subscription("sub-" + userId + "-" + strategyId, userId, strategyId, now, "active")
  }

  /** The strategy with one more subscriber and nothing else changed. */
  function WithSubscriber(s: Strategy): (r: Strategy)
    ensures r.subscribers == s.subscribers + 1 && r.id == s.id && r.reputation == s.reputation
  {
    s.(subscribers := s.subscribers + 1)
  }

  /** The review the user files at `now`. */
  function NewReview(userId: string, strategyId: string, rating: real, comment: string, now: int): (r: Review)
    ensures r.strategyId == strategyId && r.userId == userId && r.rating == rating
    ensures r.comment == comment && r.createdAt == now && r.id == "review-" + IntToString(now)
  {
    Review("review-" + IntToString(now), strategyId, userId, rating, comment, now)
  }

  /** The strategy with its reputation recomputed from all its reviews, nothing else changed. */
  function WithReputation(s: Strategy, all: seq<Review>): (r: Strategy)
    requires all != []
    ensures r.reputation == Reputation(all) && r.id == s.id && r.subscribers == s.subscribers
  {
    s.(reputation := Reputation(all))
  }

  /** Subscribing to a known strategy keeps the store consistent. */
  lemma SubscribeKeepsConsistent(strategies: map<string, Strategy>, order: seq<string>,
                                 subscriptions: map<string, Subscription>, subscriptionOrder: seq<string>,
                                 reviews: map<string, seq<Review>>, strategyId: string, sub: Subscription)
    requires Consistent(strategies, order, subscriptions, subscriptionOrder, reviews)
    requires strategyId in strategies
    ensures Consistent(strategies[strategyId := WithSubscriber(strategies[strategyId])], order,
                       subscriptions[sub.id := sub],
                       if sub.id in subscriptions then subscriptionOrder else subscriptionOrder + [sub.id],
                       reviews)
  {
    TableInsert(subscriptions, subscriptionOrder, sub.id, sub);
    TableInsert(strategies, order, strategyId, strategies[strategyId]);
  }

  /** Filing an accepted review about a known strategy, and recomputing its reputation, keeps the store consistent. */
  lemma ReviewKeepsConsistent(strategies: map<string, Strategy>, order: seq<string>,
                              subscriptions: map<string, Subscription>, subscriptionOrder: seq<string>,
                              reviews: map<string, seq<Review>>, review: Review)
    requires Consistent(strategies, order, subscriptions, subscriptionOrder, reviews)
    requires review.strategyId in strategies && 1.0 <= review.rating <= 5.0
    ensures var id := review.strategyId;
            var all := (if id in reviews then reviews[id] else []) + [review];
            Consistent(strategies[id := WithReputation(strategies[id], all)], order,
                       subscriptions, subscriptionOrder, reviews[id := all])
  {
    var id := review.strategyId;
    var all := (if id in reviews then reviews[id] else []) + [review];
    ReviewAppended(reviews, strategies, id, review);
    TableInsert(strategies, order, id, strategies[id]);
  }

  // --------------------------------------------------------------- store

  /** The three module-level tables. */
  class Store {
    var strategies: map<string, Strategy>
    /** Strategy ids in insertion order, which `Object.values` follows. */
    var order: seq<string>
    var subscriptions: map<string, Subscription>
    var subscriptionOrder: seq<string>
    var reviews: map<string, seq<Review>>

    ghost predicate Valid()
      reads this
    {
      Consistent(strategies, order, subscriptions, subscriptionOrder, reviews)
    }

    /** The tables as the module loads them: the three seed strategies, nothing else. */
    constructor ()
      ensures Valid()
      ensures order == ["strat-001", "strat-002", "strat-003"]
      ensures strategies == map["strat-001" := TechMomentum, "strat-002" := DividendGrowth,
                                "strat-003" := CryptoVolume]
      ensures subscriptions == map[] && subscriptionOrder == [] && reviews == map[]
    {
      strategies := map["strat-001" := TechMomentum, "strat-002" := DividendGrowth,
                        "strat-003" := CryptoVolume];
      order := ["strat-001", "strat-002", "strat-003"];
      subscriptions := map[];
      subscriptionOrder := [];
      reviews := map[];
    }

    /** `getPublicStrategies(filters)`. */
    function GetPublicStrategies(f: Filters): (r: seq<Strategy>)
      reads this
      requires Valid()
      ensures forall s :: s in r <==>
                && s in strategies.Values && s.isPublic
                && (Given(f.riskLevel) ==> s.riskLevel == f.riskLevel.value)
                && (Given(f.tag) ==> f.tag.value in s.tags)
      ensures SortKey(f.sortBy).Some? ==> SortedDesc(r, SortKey(f.sortBy).value)
      ensures r == PublicStrategies(ValuesOf(order, strategies), f)
      ensures multiset(r) == multiset(Selected(ValuesOf(order, strategies), f))
      ensures SortKey(f.sortBy).None? ==> r == Selected(ValuesOf(order, strategies), f)
    {
      var all := ValuesOf(order, strategies);
      assert forall s :: s in all <==> s in strategies.Values by {
        forall s ensures s in all <==> s in strategies.Values {
          if s in strategies.Values {
            var k :| k in strategies && strategies[k] == s;
            var i :| 0 <= i < |order| && order[i] == k;
            assert all[i] == s;
          }
        }
      }
      PublicStrategies(all, f)
    }

    /** `getStrategyById`. */
    function GetStrategyById(strategyId: string): (r: Result<Strategy, string>)
      reads this
      ensures r.Success? <==> strategyId in strategies
      ensures r.Success? ==> r.value == strategies[strategyId]
      ensures r.Failure? ==> r.error == NotFound
    {
      if strategyId in strategies then Success(strategies[strategyId]) else Failure(NotFound)
    }

    /**
     * `publishStrategy`: an invalid input changes nothing; otherwise the new
     * strategy is stored under `strat-<now>` (overwriting one stored in the
     * same millisecond) and returned.
     */
    method PublishStrategy(userId: string, input: CreateInput, now: int, performance: Performance)
        returns (r: Result<Strategy, string>)
      requires Valid()
      modifies this
      ensures Valid()
      ensures PublishError(input).Some? ==>
                r == Failure(PublishError(input).value) && strategies == old(strategies) && order == old(order)
      ensures PublishError(input).None? ==>
                var s := Published(userId, input, now, performance);
                && r == Success(s)
                && strategies == old(strategies)[s.id := s]
                && order == (if s.id in old(strategies) then old(order) else old(order) + [s.id])
      ensures subscriptions == old(subscriptions) && subscriptionOrder == old(subscriptionOrder)
      ensures reviews == old(reviews)
    {
      var refusal := PublishError(input);
      if refusal.Some? {
        return Failure(refusal.value);
      }
      var s := Published(userId, input, now, performance);
      Store(s);
      r := Success(s);
    }

    /** `mockStrategies[s.id] = s`: a new id goes last in key order, a known id keeps its place. */
    method Store(s: Strategy)
      requires Valid() && 0 <= s.reputation <= 100
      modifies this
      ensures Valid()
      ensures strategies == old(strategies)[s.id := s]
      ensures order == if s.id in old(strategies) then old(order) else old(order) + [s.id]
      ensures subscriptions == old(subscriptions) && subscriptionOrder == old(subscriptionOrder)
      ensures reviews == old(reviews)
    {
      PublishKeepsConsistent(strategies, order, subscriptions, subscriptionOrder, reviews, s);
      if s.id !in strategies {
        order := order + [s.id];
      }
      strategies := strategies[s.id := s];
    }

    /**
     * `subscribeToStrategy`: an unknown strategy changes nothing; otherwise an
     * active subscription is stored under `sub-<user>-<strategy>` and the
     * strategy gains exactly one subscriber, even when that user had
     * subscribed before.
     */
    method SubscribeToStrategy(userId: string, strategyId: string, now: int)
        returns (r: Result<Subscription, string>)
      requires Valid()
      modifies this
      ensures Valid()
      ensures strategyId !in old(strategies) ==>
                r == Failure(NotFound) && strategies == old(strategies)
                && subscriptions == old(subscriptions) && subscriptionOrder == old(subscriptionOrder)
      ensures strategyId in old(strategies) ==>
                var sub := NewSubscription(userId, strategyId, now);
                && r == Success(sub)
                && subscriptions == old(subscriptions)[sub.id := sub]
                && subscriptionOrder == (if sub.id in old(subscriptions) then old(subscriptionOrder)
                                         else old(subscriptionOrder) + [sub.id])
                && strategies == old(strategies)[strategyId := WithSubscriber(old(strategies)[strategyId])]
      ensures order == old(order) && reviews == old(reviews)
    {
      if strategyId !in strategies {
        return Failure(NotFound);
      }
      var sub := NewSubscription(userId, strategyId, now);
      SubscribeKeepsConsistent(strategies, order, subscriptions, subscriptionOrder, reviews, strategyId, sub);
      if sub.id !in subscriptions {
        subscriptionOrder := subscriptionOrder + [sub.id];
      }
      subscriptions := subscriptions[sub.id := sub];
      strategies := strategies[strategyId := WithSubscriber(strategies[strategyId])];
      r := Success(sub);
    }

    /**
     * `leaveReview`: the rating and the comment are checked before the
     * strategy is looked up; an accepted review is appended to the
     * strategy's reviews and its reputation recomputed from all of them.
     */
    method LeaveReview(userId: string, strategyId: string, rating: real, comment: string, now: int)
        returns (r: Result<Review, string>)
      requires Valid()
      modifies this
      ensures Valid()
      ensures ReviewError(rating, comment).Some? ==>
                r == Failure(ReviewError(rating, comment).value)
                && strategies == old(strategies) && reviews == old(reviews)
      ensures ReviewError(rating, comment).None? && strategyId !in old(strategies) ==>
                r == Failure(NotFound) && strategies == old(strategies) && reviews == old(reviews)
      ensures ReviewError(rating, comment).None? && strategyId in old(strategies) ==>
                var review := NewReview(userId, strategyId, rating, comment, now);
                var all := (if strategyId in old(reviews) then old(reviews)[strategyId] else []) + [review];
                && r == Success(review)
                && reviews == old(reviews)[strategyId := all]
                && strategies == old(strategies)[strategyId := WithReputation(old(strategies)[strategyId], all)]
      ensures r.Success? ==> GetStrategyReviews(strategyId) == old(GetStrategyReviews(strategyId)) + [r.value]
      ensures order == old(order)
      ensures subscriptions == old(subscriptions) && subscriptionOrder == old(subscriptionOrder)
    {
      var refusal := ReviewError(rating, comment);
      if refusal.Some? {
        return Failure(refusal.value);
      }
      if strategyId !in strategies {
        return Failure(NotFound);
      }
      var review := NewReview(userId, strategyId, rating, comment, now);
      FileReview(review);
      r := Success(review);
    }

    /**
     * Appends an accepted review to its strategy's list and recomputes that
     * strategy's reputation from the whole list.
     */
    method FileReview(review: Review)
      requires Valid() && review.strategyId in strategies && 1.0 <= review.rating <= 5.0
      modifies this
      ensures Valid()
      ensures var id := review.strategyId;
              var all := (if id in old(reviews) then old(reviews)[id] else []) + [review];
              && reviews == old(reviews)[id := all]
              && strategies == old(strategies)[id := WithReputation(old(strategies)[id], all)]
      ensures GetStrategyReviews(review.strategyId) == old(GetStrategyReviews(review.strategyId)) + [review]
      ensures order == old(order)
      ensures subscriptions == old(subscriptions) && subscriptionOrder == old(subscriptionOrder)
    {
      var id := review.strategyId;
      var all := (if id in reviews then reviews[id] else []) + [review];
      ReviewKeepsConsistent(strategies, order, subscriptions, subscriptionOrder, reviews, review);
      reviews := reviews[id := all];
      strategies := strategies[id := WithReputation(strategies[id], all)];
    }

    /** `getStrategyReviews`: the strategy's reviews, all about it and rated 1 to 5; [] when it has none. */
    function GetStrategyReviews(strategyId: string): (r: seq<Review>)
      reads this
      requires Valid()
      ensures forall i :: 0 <= i < |r| ==> r[i].strategyId == strategyId
      ensures RatingsInRange(r)
      ensures strategyId !in reviews ==> r == []
      ensures strategyId in reviews ==> r == reviews[strategyId]
    {
      if strategyId in reviews then reviews[strategyId] else []
    }

    /** `getUserSubscriptions`: that user's subscriptions, in insertion order. */
    function GetUserSubscriptions(userId: string): (r: seq<Subscription>)
      reads this
      requires Valid()
      ensures forall sub :: sub in r <==> sub in subscriptions.Values && sub.userId == userId
      ensures r == Filter(ValuesOf(subscriptionOrder, subscriptions), (sub: Subscription) => sub.userId == userId)
      ensures Subsequence(r, ValuesOf(subscriptionOrder, subscriptions))
    {
      var all := ValuesOf(subscriptionOrder, subscriptions);
      var r := Filter(all, (sub: Subscription) => sub.userId == userId);
      forall sub ensures sub in r <==> sub in subscriptions.Values && sub.userId == userId {
        FilterIn(all, (sub: Subscription) => sub.userId == userId, sub);
        if sub in subscriptions.Values {
          var k :| k in subscriptions && subscriptions[k] == sub;
          var i :| 0 <= i < |subscriptionOrder| && subscriptionOrder[i] == k;
          assert all[i] == sub;
        }
      }
      FilterSubsequence(all, (sub: Subscription) => sub.userId == userId);
      r
    }
  }

  // ----------------------------------------------------------- properties

  lemma {:induction false} SumRatingsBounds(reviews: seq<Review>)
    requires RatingsInRange(reviews)
    ensures |reviews| as real <= SumRatings(reviews) <= 5.0 * |reviews| as real
  {
    if reviews != [] {
      SumRatingsBounds(reviews[..|reviews| - 1]);
    }
  }

  /** Appending an accepted review about a known strategy keeps every review list well filed. */
  lemma ReviewAppended(reviews: map<string, seq<Review>>, strategies: map<string, Strategy>,
                       strategyId: string, review: Review)
    requires ReviewsFiled(reviews, strategies) && strategyId in strategies
    requires review.strategyId == strategyId && 1.0 <= review.rating <= 5.0
    ensures ReviewsFiled(reviews[strategyId := (if strategyId in reviews then reviews[strategyId] else []) + [review]],
                         strategies)
  {
  }

  /** Strategies that tie on the sort key keep their table order. */
  lemma PublicStrategiesStable(all: seq<Strategy>, f: Filters, k: real)
    requires SortKey(f.sortBy).Some?
    ensures Filter(PublicStrategies(all, f), KeyIs(SortKey(f.sortBy).value, k))
            == Filter(Selected(all, f), KeyIs(SortKey(f.sortBy).value, k))
  {
    SortDescStable(Selected(all, f), SortKey(f.sortBy).value, k);
  }

  /** A single review sets the reputation to 20 times its rating, rounded. */
  lemma SingleReviewReputation(review: Review)
    ensures Reputation([review]) == Round(review.rating * 20.0)
  {
    assert SumRatings([review]) == review.rating by {
      assert [review][..0] == [];
    }
  }

  /** A tag or risk level given as the empty string filters nothing. */
  lemma EmptyFiltersIgnored(all: seq<Strategy>, sortBy: Option<string>)
    ensures Selected(all, Filters(Some(""), Some(""), sortBy)) == Selected(all, Filters(None, None, sortBy))
  {
  }

  /**
   * Lengths are `.length`, in UTF-16 code units: a title of two astral emoji
   * is four units long, enough to publish.
   */
  lemma AstralTitle(input: CreateInput)
    requires input.title == "\U{1F680}\U{1F4C8}" && input.conditions != []
    ensures PublishError(input).None?
  {
    AstralPairLength('\U{1F680}', '\U{1F4C8}');
    assert input.title == ['\U{1F680}', '\U{1F4C8}'];
  }

  /** Three astral emoji make a six-unit comment, enough to review. */
  lemma AstralComment()
    ensures ReviewError(5.0, "\U{1F44D}\U{1F44D}\U{1F44D}").None?
  {
    var c := "\U{1F44D}\U{1F44D}\U{1F44D}";
    assert |c| == 3 && IsAstral(c[0]) && IsAstral(c[1]) && IsAstral(c[2]);
    AstralEdgesKept(c);
    Utf16LengthAstral(c);
  }
}
