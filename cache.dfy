/**
 * `ScraperCache<T>`: an in-memory keyed store whose entries carry the time
 * they were stored and a time-to-live. Expired entries are evicted lazily by
 * `get`/`has` and in bulk by `cleanup`; nothing evicts them otherwise. The
 * clock is a parameter (`now`, in milliseconds).
 *
 * The JavaScript `Map` is modelled by `entries` together with `order`, the
 * sequence of its keys in insertion order (the order `keys()` and the
 * statistics list them in).
 */
module Cache {
  import opened Wrappers
  import opened Seqs

  datatype Entry<T> = Entry(data: T, timestamp: int, ttl: int)

  datatype CacheStats = CacheStats(size: nat, keys: seq<string>, ages: seq<int>)

  /** `now - entry.timestamp > entry.ttl`. */
  predicate Expired<T>(e: Entry<T>, now: int)
  {
    now - e.timestamp > e.ttl
  }

  /** What `get(key)` returns at time `now`. */
  function Lookup<T>(m: map<string, Entry<T>>, key: string, now: int): Option<T>
  {
    if key in m && !Expired(m[key], now) then Some(m[key].data) else None
  }

  /** The entries left after `get(key)` at `now`: an expired entry for `key` is removed. */
  function AfterAccess<T>(m: map<string, Entry<T>>, key: string, now: int): map<string, Entry<T>>
  {
    if key in m && Expired(m[key], now) then m - {key} else m
  }

  /** The entries `cleanup` keeps: every unexpired one, unchanged. */
  function Unexpired<T>(m: map<string, Entry<T>>, now: int): map<string, Entry<T>>
  {
    map k | k in m && !Expired(m[k], now) :: m[k]
  }

  predicate Live<T>(m: map<string, Entry<T>>, now: int, k: string)
  {
    k in m && !Expired(m[k], now)
  }

  /** The keys of `order` whose entries are unexpired, in order. */
  function LiveKeys<T>(order: seq<string>, m: map<string, Entry<T>>, now: int): seq<string>
  {
    Filter(order, k => Live(m, now, k))
  }

  /** `order` with `key` taken out. */
  function Without(order: seq<string>, key: string): seq<string>
  {
    Filter(order, k => k != key)
  }

  /** An entry `get` can see is one that `cleanup` keeps, and conversely. */
  lemma LookupUnexpired<T>(m: map<string, Entry<T>>, key: string, now: int)
    ensures Lookup(m, key, now).Some? <==> key in Unexpired(m, now)
    ensures key in Unexpired(m, now) ==> Lookup(m, key, now) == Some(Unexpired(m, now)[key].data)
  {
  }

  /** A second `cleanup` at the same instant removes nothing. */
  lemma CleanupIdempotent<T>(m: map<string, Entry<T>>, now: int)
    ensures Unexpired(Unexpired(m, now), now) == Unexpired(m, now)
  {
  }

  /** The entries while `cleanup` is at position `i` of `keys`: only expired entries before `i` are gone. */
  ghost function Pending<T>(m0: map<string, Entry<T>>, keys: seq<string>, i: nat, now: int): map<string, Entry<T>>
    requires i <= |keys|
  {
    map k | k in m0 && (k in keys[i..] || !Expired(m0[k], now)) :: m0[k]
  }

  lemma PendingStep<T>(m0: map<string, Entry<T>>, keys: seq<string>, i: nat, now: int)
    requires i < |keys| && Distinct(keys) && keys[i] in m0
    ensures Expired(m0[keys[i]], now) ==> Pending(m0, keys, i + 1, now) == Pending(m0, keys, i, now) - {keys[i]}
    ensures !Expired(m0[keys[i]], now) ==> Pending(m0, keys, i + 1, now) == Pending(m0, keys, i, now)
    ensures keys[i] in Pending(m0, keys, i, now) && Pending(m0, keys, i, now)[keys[i]] == m0[keys[i]]
    ensures LivePrefix(keys, i + 1, m0, now)
            == LivePrefix(keys, i, m0, now) + (if Expired(m0[keys[i]], now) then [] else [keys[i]])
  {
    assert keys[i..] == [keys[i]] + keys[i + 1..];
    assert keys[i] !in keys[i + 1..];
  }

  lemma PendingStart<T>(m0: map<string, Entry<T>>, keys: seq<string>, now: int)
    requires forall k :: k in m0 <==> k in keys
    ensures Pending(m0, keys, 0, now) == m0
  {
    assert keys[0..] == keys;
  }

  lemma PendingEnd<T>(m0: map<string, Entry<T>>, keys: seq<string>, now: int)
    ensures Pending(m0, keys, |keys|, now) == Unexpired(m0, now)
  {
    assert keys[|keys|..] == [];
  }

  /** The live keys among the first `i` of `keys`, built one key at a time as `cleanup` meets them. */
  ghost function LivePrefix<T>(keys: seq<string>, i: nat, m0: map<string, Entry<T>>, now: int): seq<string>
    requires i <= |keys|
  {
    if i == 0 then []
    else LivePrefix(keys, i - 1, m0, now) + (if Live(m0, now, keys[i - 1]) then [keys[i - 1]] else [])
  }

  lemma {:induction false} LivePrefixIsLiveKeys<T>(keys: seq<string>, i: nat, m0: map<string, Entry<T>>, now: int)
    requires i <= |keys|
    ensures LivePrefix(keys, i, m0, now) == LiveKeys(keys[..i], m0, now)
  {
    if i > 0 {
      LivePrefixIsLiveKeys(keys, i - 1, m0, now);
      var f := k => Live(m0, now, k);
      assert keys[..i] == keys[..i - 1] + [keys[i - 1]];
      FilterConcat(keys[..i - 1], [keys[i - 1]], f);
      assert Filter([keys[i - 1]], f) == if f(keys[i - 1]) then [keys[i - 1]] else [];
    }
  }

  /** What `cleanup` leaves once it has passed every key. */
  lemma CleanupEnd<T>(keys: seq<string>, m0: map<string, Entry<T>>, now: int,
                      ents: map<string, Entry<T>>, ord: seq<string>)
    requires Distinct(keys) && forall k :: k in m0 <==> k in keys
    requires ord == LivePrefix(keys, |keys|, m0, now)
    requires ents == Pending(m0, keys, |keys|, now)
    ensures ents == Unexpired(m0, now) && ord == LiveKeys(keys, m0, now)
    ensures Distinct(ord) && forall k :: k in ents <==> k in ord
    ensures |ents| == |ord| && |m0| == |keys|
  {
    assert keys[..|keys|] == keys;
    LivePrefixIsLiveKeys(keys, |keys|, m0, now);
    PendingEnd(m0, keys, now);
    FilterDistinct(keys, k => Live(m0, now, k));
    forall k {
      FilterIn(keys, k' => Live(m0, now, k'), k);
    }
    DistinctCardinality(ord);
    assert ents.Keys == set k | k in ord;
    DistinctCardinality(keys);
    assert m0.Keys == set k | k in keys;
  }

  /**
   * The loop of `cleanup`, over the keys in insertion order: each expired
   * entry is deleted as it is met and counted. While the loop is at `i`, the
   * map's key order is `kept + keys[i..]`; `kept` holds the keys already
   * passed that stayed.
   */
  method Sweep<T>(keys: seq<string>, m0: map<string, Entry<T>>, now: int)
      returns (ents: map<string, Entry<T>>, kept: seq<string>, removed: nat)
    requires Distinct(keys) && forall k :: k in m0 <==> k in keys
    ensures ents == Unexpired(m0, now) && kept == LiveKeys(keys, m0, now)
    ensures Distinct(kept) && forall k :: k in ents <==> k in kept
    ensures removed == |m0| - |ents|
  {
    ents, kept := m0, [];
    var i := 0;
    removed := 0;
    PendingStart(m0, keys, now);
    while i < |keys|
      invariant 0 <= i <= |keys|
      invariant kept == LivePrefix(keys, i, m0, now)
      invariant ents == Pending(m0, keys, i, now)
      invariant removed == i - |kept|
    {
      var key := keys[i];
      PendingStep(m0, keys, i, now);
      var e := ents[key];
      assert e == m0[key];
      if Expired(e, now) {
        ents := ents - {key};
        removed := removed + 1;
      } else {
        kept := kept + [key];
      }
      i := i + 1;
    }
    CleanupEnd(keys, m0, now, ents, kept);
  }

  class ScraperCache<T> {
    var entries: map<string, Entry<T>>
    var order: seq<string>
    /** The default time-to-live in milliseconds. */
    const defaultTtl: int

    ghost predicate Valid()
      reads this
    {
      && Distinct(order)
      && (forall k :: k in entries <==> k in order)
      && defaultTtl % 1000 == 0
    }

    /** `new ScraperCache(defaultTTLSeconds = 300)`. */
    constructor (defaultTtlSeconds: Option<int>)
      ensures Valid() && entries == map[] && order == []
      ensures defaultTtl == (if defaultTtlSeconds.Some? then defaultTtlSeconds.value else 300) * 1000
    {
      defaultTtl := (if defaultTtlSeconds.Some? then defaultTtlSeconds.value else 300) * 1000;
      entries := map[];
      order := [];
    }

    /** The time-to-live `set` stamps on an entry: `(ttlSeconds ?? defaultTTL / 1000) * 1000`. */
    function TtlFor(ttlSeconds: Option<int>): (ttl: int)
      reads this
      requires Valid()
      ensures ttlSeconds.None? ==> ttl == defaultTtl
      ensures ttlSeconds.Some? ==> ttl == ttlSeconds.value * 1000
    {
      (if ttlSeconds.Some? then ttlSeconds.value else defaultTtl / 1000) * 1000
    }

    /** Every resident entry is counted, expired or not. */
    lemma SizeCountsOrder()
      requires Valid()
      ensures |entries| == |order|
    {
      DistinctCardinality(order);
      assert entries.Keys == set k | k in order;
    }

    /** `get`: the data of an unexpired entry; an expired entry is removed and null returned. */
    method Get(key: string, now: int) returns (r: Option<T>)
      requires Valid()
      modifies this
      ensures Valid()
      ensures r == Lookup(old(entries), key, now)
      ensures entries == AfterAccess(old(entries), key, now)
      ensures order == if key in old(entries) && Expired(old(entries)[key], now)
                       then Without(old(order), key) else old(order)
    {
      if key !in entries {
        return None;
      }
      var e := entries[key];
      if now - e.timestamp > e.ttl {
        var _ := Delete(key);
        return None;
      }
      return Some(e.data);
    }

    /** `set`: overwrites any entry for `key`, stamped with `now`; a new key goes last in order. */
    method Set(key: string, data: T, ttlSeconds: Option<int>, now: int)
      requires Valid()
      modifies this
      ensures Valid()
      ensures entries == old(entries)[key := Entry(data, now, TtlFor(ttlSeconds))]
      ensures order == if key in old(entries) then old(order) else old(order) + [key]
    {
      var ttl := (if ttlSeconds.Some? then ttlSeconds.value else defaultTtl / 1000) * 1000;
      if key !in entries {
        order := order + [key];
      }
      entries := entries[key := Entry(data, now, ttl)];
    }

    /** `has(key)` is `get(key) !== null`, with the same eviction. */
    method Has(key: string, now: int) returns (b: bool)
      requires Valid()
      modifies this
      ensures Valid()
      ensures b == Lookup(old(entries), key, now).Some?
      ensures entries == AfterAccess(old(entries), key, now)
      ensures order == if key in old(entries) && Expired(old(entries)[key], now)
                       then Without(old(order), key) else old(order)
    {
      var r := Get(key, now);
      b := r.Some?;
    }

    /** `delete`: true iff the key was present; every other key is untouched. */
    method Delete(key: string) returns (b: bool)
      requires Valid()
      modifies this
      ensures Valid()
      ensures b == (key in old(entries))
      ensures entries == old(entries) - {key}
      ensures order == Without(old(order), key)
    {
      b := key in entries;
      entries := entries - {key};
      FilterDistinct(order, k => k != key);
      forall k ensures k in Without(order, key) <==> k in order && k != key {
        FilterIn(order, k' => k' != key, k);
      }
      order := Without(order, key);
    }

    method Clear()
      requires Valid()
      modifies this
      ensures Valid()
      ensures entries == map[] && order == []
    {
      entries := map[];
      order := [];
    }

    /** `size()`: one per key, live or not yet swept. */
    function Size(): (n: nat)
      reads this
      requires Valid()
      ensures n == |Keys()|
    {
      assert entries.Keys == set k | k in order;
      DistinctCardinality(order);
      |entries|
    }

    /** `keys()`, in insertion order: every stored key exactly once. */
    function Keys(): (ks: seq<string>)
      reads this
      requires Valid()
      ensures Distinct(ks)
      ensures forall k :: k in ks <==> k in entries
    {
      order
    }

    /**
     * `cleanup`: removes exactly the expired entries, keeps the others
     * unchanged, and returns how many it removed.
     */
    method Cleanup(now: int) returns (removed: nat)
      requires Valid()
      modifies this
      ensures Valid()
      ensures entries == Unexpired(old(entries), now)
      ensures order == LiveKeys(old(order), old(entries), now)
      ensures removed == |old(entries)| - |entries|
    {
      SizeCountsOrder();
      var ents, ord;
      ents, ord, removed := Sweep(order, entries, now);
      entries, order := ents, ord;
    }

    /** `stats()`: size, keys and one age per resident entry, expired ones included. */
    method Stats(now: int) returns (s: CacheStats)
      requires Valid()
      ensures s.size == |entries| && s.keys == order
      ensures |s.ages| == |order| == s.size
      ensures forall i :: 0 <= i < |order| ==> s.ages[i] == now - entries[order[i]].timestamp
    {
      SizeCountsOrder();
      var ages := [];
      var i := 0;
      while i < |order|
        invariant 0 <= i <= |order|
        invariant |ages| == i
        invariant forall j :: 0 <= j < i ==> ages[j] == now - entries[order[j]].timestamp
      {
        ages := ages + [now - entries[order[i]].timestamp];
        i := i + 1;
      }
      s := CacheStats(|entries|, order, ages);
    }
  }

  /** The two caches the scrapers share: quotes for 300 seconds, news for 600. */
  method GlobalCaches() returns (stockPriceCache: ScraperCache<int>, newsCache: ScraperCache<int>)
    ensures fresh(stockPriceCache) && fresh(newsCache)
    ensures stockPriceCache.Valid() && stockPriceCache.defaultTtl == 300000
    ensures newsCache.Valid() && newsCache.defaultTtl == 600000
  {
    stockPriceCache := new ScraperCache(Some(300));
    newsCache := new ScraperCache(Some(600));
  }
}
