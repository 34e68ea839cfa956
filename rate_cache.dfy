/**
 * `UspsRateCache`: the `usps_rate_cache` table, keyed by `cache_key` (a
 * unique column), holding the request parameters, the rates and an expiry
 * time in seconds. The clock is the parameter `now`.
 */
module RateCache {
  import opened Php

  /** TTL used by `cacheRates` when the caller gives none. */
  const DefaultTtl := 3600

  datatype CacheEntry = CacheEntry(params: Dict, rates: Dict, expiresAt: int)

  /** The table: at most one row per cache key. */
  type Table = map<string, CacheEntry>

  /** `isExpired`: the expiry lies strictly in the past. */
  predicate IsExpired(e: CacheEntry, now: int) {
    e.expiresAt < now
  }

  /** `getCachedRates`: the rates of the row for `key` if it expires strictly after `now`. */
  function CachedRates(t: Table, key: string, now: int): Option<Dict> {
    if key in t && t[key].expiresAt > now then Some(t[key].rates) else None
  }

  /** `cacheRates`: `updateOrCreate` on the key. */
  function Upsert(t: Table, key: string, params: Dict, rates: Dict, ttl: int, now: int): Table {
    t[key := CacheEntry(params, rates, now + ttl)]
  }

  /** The rows `clearExpired` deletes. */
  function ExpiredKeys(t: Table, now: int): set<string> {
    set k | k in t && IsExpired(t[k], now)
  }

  /** The table after `clearExpired`. */
  function Purge(t: Table, now: int): Table {
    map k | k in t && !IsExpired(t[k], now) :: t[k]
  }

  /** Right after caching with a positive TTL, a read at the same time returns the cached rates. */
  lemma ReadAfterUpsert(t: Table, key: string, params: Dict, rates: Dict, ttl: int, now: int)
    requires ttl > 0
    ensures CachedRates(Upsert(t, key, params, rates, ttl, now), key, now) == Some(rates)
  {
  }

  /** A TTL of zero or less stores a row that no read at the same time returns. */
  lemma UpsertWithoutTtlIsUnreadable(t: Table, key: string, params: Dict, rates: Dict, ttl: int, now: int)
    requires ttl <= 0
    ensures key in Upsert(t, key, params, rates, ttl, now)
    ensures CachedRates(Upsert(t, key, params, rates, ttl, now), key, now) == None
  {
  }

  /** Caching under one key leaves every other row, and every read of it, as it was. */
  lemma UpsertKeepsOtherKeys(t: Table, key: string, params: Dict, rates: Dict, ttl: int, now: int,
                             other: string, later: int)
    requires other != key
    ensures var u := Upsert(t, key, params, rates, ttl, now);
            (other in u <==> other in t) && (other in t ==> u[other] == t[other])
            && CachedRates(u, other, later) == CachedRates(t, other, later)
  {
  }

  /**
   * `clearExpired` deletes exactly the expired rows, keeps the others as
   * they were, and the number it reports plus the rows left is the number
   * of rows before.
   */
  lemma PurgeExact(t: Table, now: int)
    ensures forall k :: k in Purge(t, now) <==> k in t && !IsExpired(t[k], now)
    ensures forall k :: k in Purge(t, now) ==> Purge(t, now)[k] == t[k]
    ensures Purge(t, now).Keys !! ExpiredKeys(t, now)
    ensures |Purge(t, now)| + |ExpiredKeys(t, now)| == |t|
  {
    var kept := Purge(t, now).Keys;
    var gone := ExpiredKeys(t, now);
    assert kept + gone == t.Keys;
    assert kept * gone == {};
  }

  /** Purging never changes what a read at the same time returns. */
  lemma PurgeKeepsReads(t: Table, now: int, key: string)
    ensures CachedRates(Purge(t, now), key, now) == CachedRates(t, key, now)
  {
  }

  /**
   * A row expiring exactly at `now` is neither expired nor purged, yet a
   * read at `now` no longer returns it.
   */
  lemma ExpiryBoundary(t: Table, key: string, now: int)
    requires key in t && t[key].expiresAt == now
    ensures !IsExpired(t[key], now)
    ensures key in Purge(t, now) && key !in ExpiredKeys(t, now)
    ensures CachedRates(t, key, now) == None
  {
  }

  class RateCacheTable {
    var rows: Table

    constructor ()
      ensures rows == map[]
    {
      rows := map[];
    }

    method GetCachedRates(key: string, now: int) returns (r: Option<Dict>)
      ensures r.Some? <==> key in rows && rows[key].expiresAt > now
      ensures r.Some? ==> r.value == rows[key].rates
      ensures r == CachedRates(rows, key, now)
    {
      if key in rows && rows[key].expiresAt > now {
        r := Some(rows[key].rates);
      } else {
        r := None;
      }
    }

    /** `cacheRates($key, $params, $rates, $ttl = 3600)`. */
    method CacheRates(key: string, params: Dict, rates: Dict, ttl: Option<int>, now: int)
      modifies this
      ensures rows == Upsert(old(rows), key, params, rates, ttl.GetOr(DefaultTtl), now)
      ensures rows.Keys == old(rows).Keys + {key}
    {
      rows := rows[key := CacheEntry(params, rates, now + ttl.GetOr(DefaultTtl))];
    }

    /** `clearExpired`: delete the rows with `expires_at < now` and report how many. */
    method ClearExpired(now: int) returns (deleted: nat)
      modifies this
      ensures rows == Purge(old(rows), now)
      ensures deleted == |ExpiredKeys(old(rows), now)| == |old(rows)| - |rows|
    {
      PurgeExact(rows, now);
      deleted := |ExpiredKeys(rows, now)|;
      rows := Purge(rows, now);
    }
  }
}
