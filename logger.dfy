/**
 * `ScraperLogger`: an append-only list of scrape events with filters by type
 * and by source and statistics derived from the list. Timestamps are a
 * parameter (`now`); console output is not modelled.
 */
module ScrapeLog {
  import opened Wrappers
  import opened Seqs
  import opened Js

  /** `'start' | 'success' | 'error' | 'retry' | 'cache-hit' | 'cache-miss'`. */
  datatype EventType = StartEvent | SuccessEvent | ErrorEvent | RetryEvent | CacheHit | CacheMiss

  /** A metadata value; the source allows anything, the code stores numbers and strings. */
  datatype MetaValue = Number(n: int) | Text(s: string) | Texts(items: seq<string>)

  type Metadata = map<string, MetaValue>

  datatype Event = Event(
    kind: EventType,
    source: string,
    timestamp: int,
    duration: Option<int>,
    error: Option<string>,
    metadata: Option<Metadata>)

  datatype Stats = Stats(
    totalEvents: nat,
    successCount: nat,
    errorCount: nat,
    retryCount: nat,
    averageDuration: real,
    sources: seq<string>)

  /** The singleton logger prints unless `SCRAPER_LOG_ENABLED` is exactly `'false'`. */
  function SingletonConsoleEnabled(scraperLogEnabled: Option<string>): (enabled: bool)
    ensures !enabled <==> scraperLogEnabled == Some("false")
  {
    scraperLogEnabled != Some("false")
  }

  /** The `error` field of a retry event: an `Error`'s message, a truthy string, or nothing. */
  function RetryErrorText(error: Option<Fault>): (text: Option<string>)
    ensures error.None? ==> text.None?
    ensures error.Some? && error.value.ErrorObject? ==> text == Some(error.value.message)
    ensures error.Some? && error.value.NonError? ==>
              text == if error.value.shown == "" then None else Some(error.value.shown)
  {
    match error
    case None => None
    case Some(ErrorObject(m)) => Some(m)
    case Some(NonError(s)) => if s != "" then Some(s) else None
  }

  /** `{ ...metadata, attempt }`: the caller's entries, with `attempt` set last. */
  function RetryMetadata(metadata: Option<Metadata>, attempt: int): (m: Metadata)
    ensures "attempt" in m && m["attempt"] == Number(attempt)
    ensures forall k :: k in m <==> k == "attempt" || (metadata.Some? && k in metadata.value)
    ensures metadata.Some? ==> forall k :: k in metadata.value && k != "attempt" ==> m[k] == metadata.value[k]
  {
    (if metadata.Some? then metadata.value else map[])["attempt" := Number(attempt)]
  }

  function OfType(events: seq<Event>, t: EventType): seq<Event>
  {
    Filter(events, (e: Event) => e.kind == t)
  }

  function OfSource(events: seq<Event>, source: string): seq<Event>
  {
    Filter(events, (e: Event) => e.source == source)
  }

  /** The durations recorded on success events, in order, skipping undefined ones. */
  function SuccessDurations(events: seq<Event>): (ds: seq<int>)
    ensures |ds| <= |OfType(events, SuccessEvent)|
  {
    if events == [] then []
    else
      var e := events[0];
      assert OfType(events, SuccessEvent)
             == (if e.kind == SuccessEvent then [e] else []) + OfType(events[1..], SuccessEvent);
      (if e.kind == SuccessEvent && e.duration.Some? then [e.duration.value] else [])
      + SuccessDurations(events[1..])
  }

  function Sum(ds: seq<int>): int
  {
    if ds == [] then 0 else ds[0] + Sum(ds[1..])
  }

  /** `durations.reduce((a, b) => a + b, 0) / durations.length`, or 0 for none. */
  function Mean(ds: seq<int>): real
  {
    if |ds| > 0 then Sum(ds) as real / |ds| as real else 0.0
  }

  function Sources(events: seq<Event>): seq<string>
  {
    seq(|events|, i requires 0 <= i < |events| => events[i].source)
  }

  /** The statistics `getStats` derives from a list of events. */
  function StatsOf(events: seq<Event>): Stats
  {
    Stats(|events|,
          |OfType(events, SuccessEvent)|,
          |OfType(events, ErrorEvent)|,
          |OfType(events, RetryEvent)|,
          Mean(SuccessDurations(events)),
          Dedup(Sources(events)))
  }

  class ScraperLogger {
    var events: seq<Event>
    const consoleEnabled: bool

    /** `new ScraperLogger(enableConsoleLog = true)`. */
    constructor (enableConsoleLog: Option<bool>)
      ensures events == []
      ensures consoleEnabled == (enableConsoleLog != Some(false))
    {
      events := [];
      consoleEnabled := enableConsoleLog != Some(false);
    }

    /** `log`: appends the event; earlier events are untouched. */
    method Log(e: Event)
      modifies this
      ensures events == old(events) + [e]
    {
      events := events + [e];
    }

    method LogStart(source: string, metadata: Option<Metadata>, now: int)
      modifies this
      ensures events == old(events) + [Event(StartEvent, source, now, None, None, metadata)]
    {
      Log(Event(StartEvent, source, now, None, None, metadata));
    }

    method LogSuccess(source: string, duration: Option<int>, metadata: Option<Metadata>, now: int)
      modifies this
      ensures events == old(events) + [Event(SuccessEvent, source, now, duration, None, metadata)]
    {
      Log(Event(SuccessEvent, source, now, duration, None, metadata));
    }

    /** `logError`: the error's message, or the string itself, is recorded. */
    method LogError(source: string, error: Fault, metadata: Option<Metadata>, now: int)
      modifies this
      ensures events == old(events) + [Event(ErrorEvent, source, now, None, Some(FaultText(error)), metadata)]
    {
      Log(Event(ErrorEvent, source, now, None, Some(FaultText(error)), metadata));
    }

    /** `logRetry`: the attempt number is always in the metadata and overrides the caller's. */
    method LogRetry(source: string, attempt: int, error: Option<Fault>, metadata: Option<Metadata>, now: int)
      modifies this
      ensures events == old(events) + [Event(RetryEvent, source, now, None, RetryErrorText(error),
                                             Some(RetryMetadata(metadata, attempt)))]
    {
      Log(Event(RetryEvent, source, now, None, RetryErrorText(error), Some(RetryMetadata(metadata, attempt))));
    }

    method LogCacheHit(source: string, metadata: Option<Metadata>, now: int)
      modifies this
      ensures events == old(events) + [Event(CacheHit, source, now, None, None, metadata)]
    {
      Log(Event(CacheHit, source, now, None, None, metadata));
    }

    method LogCacheMiss(source: string, metadata: Option<Metadata>, now: int)
      modifies this
      ensures events == old(events) + [Event(CacheMiss, source, now, None, None, metadata)]
    {
      Log(Event(CacheMiss, source, now, None, None, metadata));
    }

    /** `getEvents`: a copy of the list, which later appends do not reach. */
    method GetEvents() returns (r: seq<Event>)
      ensures r == events
    {
      r := events;
    }

    /** `getEventsByType`: the events of that type, in logged order. */
    function GetEventsByType(t: EventType): (r: seq<Event>)
      reads this
      ensures |r| <= |events|
      ensures forall e :: e in r <==> e in events && e.kind == t
      ensures r == OfType(events, t) && Subsequence(r, events)
    {
      var r := OfType(events, t);
      FilterSubsequence(events, (e: Event) => e.kind == t);
      assert forall e :: e in r <==> e in events && e.kind == t by {
        forall e ensures e in r <==> e in events && e.kind == t {
          FilterIn(events, (e': Event) => e'.kind == t, e);
        }
      }
      r
    }

    /** `getEventsBySource`: the events from that source, in logged order. */
    function GetEventsBySource(source: string): (r: seq<Event>)
      reads this
      ensures |r| <= |events|
      ensures forall e :: e in r <==> e in events && e.source == source
      ensures r == OfSource(events, source) && Subsequence(r, events)
    {
      var r := OfSource(events, source);
      FilterSubsequence(events, (e: Event) => e.source == source);
      assert forall e :: e in r <==> e in events && e.source == source by {
        forall e ensures e in r <==> e in events && e.source == source {
          FilterIn(events, (e': Event) => e'.source == source, e);
        }
      }
      r
    }

    /** `getStats`. */
    function GetStats(): (s: Stats)
      reads this
      ensures s.totalEvents == |events|
      ensures s.successCount + s.errorCount + s.retryCount <= s.totalEvents
      ensures Distinct(s.sources)
      ensures forall src :: src in s.sources <==> exists i :: 0 <= i < |events| && events[i].source == src
      ensures s.successCount == |OfType(events, SuccessEvent)| && s.errorCount == |OfType(events, ErrorEvent)|
      ensures s.retryCount == |OfType(events, RetryEvent)|
      ensures s.averageDuration == Mean(SuccessDurations(events))
      ensures s.sources == Dedup(Sources(events))
    {
      var s := StatsOf(events);
      TypeCountsBounded(events);
      assert forall src :: src in s.sources <==> exists i :: 0 <= i < |events| && events[i].source == src by {
        var srcs := Sources(events);
        forall src ensures src in s.sources <==> exists i :: 0 <= i < |events| && events[i].source == src {
          if src in s.sources {
            var k :| 0 <= k < |s.sources| && s.sources[k] == src;
            var i :| 0 <= i < |srcs| && srcs[i] == src;
            assert events[i].source == src;
          }
          if exists i :: 0 <= i < |events| && events[i].source == src {
            var i :| 0 <= i < |events| && events[i].source == src;
            assert srcs[i] == src;
          }
        }
      }
      s
    }

    /** `clear`. */
    method Clear()
      modifies this
      ensures events == []
    {
      events := [];
    }
  }

  // ------------------------------------------------------------ properties

  /** Success, error and retry events are disjoint kinds, so their counts add up to at most the total. */
  lemma {:induction false} TypeCountsBounded(events: seq<Event>)
    ensures |OfType(events, SuccessEvent)| + |OfType(events, ErrorEvent)| + |OfType(events, RetryEvent)| <= |events|
  {
    if events != [] {
      TypeCountsBounded(events[1..]);
    }
  }

  /** Logging one more event extends each type filter by that event alone, or not at all. */
  lemma OfTypeAfterLog(events: seq<Event>, e: Event, t: EventType)
    ensures OfType(events + [e], t) == OfType(events, t) + (if e.kind == t then [e] else [])
  {
    FilterConcat(events, [e], (x: Event) => x.kind == t);
  }

  lemma OfSourceAfterLog(events: seq<Event>, e: Event, source: string)
    ensures OfSource(events + [e], source) == OfSource(events, source) + (if e.source == source then [e] else [])
  {
    FilterConcat(events, [e], (x: Event) => x.source == source);
  }

  /** The sources are listed in the order in which each first appears. */
  lemma SourcesFirstAppearance(events: seq<Event>, i: nat, j: nat)
    requires i < j < |StatsOf(events).sources|
    ensures FirstIndex(Sources(events), StatsOf(events).sources[i])
            < FirstIndex(Sources(events), StatsOf(events).sources[j])
  {
    DedupFirstAppearance(Sources(events), i, j);
  }

  lemma {:induction false} SumBounds(ds: seq<int>, lo: int, hi: int)
    requires forall i :: 0 <= i < |ds| ==> lo <= ds[i] <= hi
    ensures |ds| * lo <= Sum(ds) <= |ds| * hi
  {
    if ds != [] {
      SumBounds(ds[1..], lo, hi);
    }
  }

  /** The average duration lies between the smallest and the largest recorded duration. */
  lemma MeanBounds(ds: seq<int>, lo: int, hi: int)
    requires |ds| > 0
    requires forall i :: 0 <= i < |ds| ==> lo <= ds[i] <= hi
    ensures lo as real <= Mean(ds) <= hi as real
  {
    SumBounds(ds, lo, hi);
    QuotientBounds(Sum(ds) as real, |ds| as real, lo as real, hi as real);
  }

  /** With no recorded success durations the average is 0. */
  lemma MeanOfNone(events: seq<Event>)
    requires forall i :: 0 <= i < |events| ==> events[i].kind != SuccessEvent || events[i].duration.None?
    ensures StatsOf(events).averageDuration == 0.0
  {
    NoDurations(events);
  }

  lemma {:induction false} NoDurations(events: seq<Event>)
    requires forall i :: 0 <= i < |events| ==> events[i].kind != SuccessEvent || events[i].duration.None?
    ensures SuccessDurations(events) == []
  {
    if events != [] {
      NoDurations(events[1..]);
    }
  }
}
