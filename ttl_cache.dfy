/**
 * The generic string-keyed TTL cache. Time is an explicit argument `now` (nanoseconds,
 * like Go's `time.Duration`), so expiry is a deterministic function of the entry and `now`.
 * The background ticker that sweeps the map is modelled as explicit calls of
 * `CleanupExpiredItems`; the read/write lock is left out.
 */
module TtlCache {
  import opened Wrappers

  /** One second in the model's time unit (nanoseconds). */
  const Second: int := 1_000_000_000

  datatype CacheItem<T> = CacheItem(value: T, expiresAt: int)

  type Items<T> = map<string, CacheItem<T>>

  /** `CacheItem.IsExpired`: `time.Now().After(ExpiresAt)`, strictly later. */
  predicate IsExpired<T>(item: CacheItem<T>, now: int) {
    now > item.expiresAt
  }

  /**
   * An entry is live up to and including its expiry instant, expired at every instant after
   * it, and once expired it never becomes live again.
   */
  lemma ExpiryBoundary<T>(item: CacheItem<T>, now: int, later: int)
    ensures !IsExpired(item, item.expiresAt) && IsExpired(item, item.expiresAt + 1)
    ensures IsExpired(item, now) && now <= later ==> IsExpired(item, later)
  {
  }

  /** What `Get` reports for `key` at time `now`: the value of a present, unexpired entry. */
  function Find<T>(items: Items<T>, key: string, now: int): (r: Option<T>)
    ensures r.Some? <==> key in items && now <= items[key].expiresAt
    ensures r.Some? ==> r.value == items[key].value
  {
    if key in items && !IsExpired(items[key], now) then Some(items[key].value) else None
  }

  /** The entries a sweep at `now` keeps: exactly the unexpired ones, with value and expiry untouched. */
  function Unexpired<T>(items: Items<T>, now: int): (live: Items<T>)
    ensures forall k :: k in live <==> k in items && now <= items[k].expiresAt
    ensures forall k :: k in live ==> live[k] == items[k]
  {
    map k | k in items && !IsExpired(items[k], now) :: items[k]
  }

  class Cache<T> {
    var items: Items<T>
    /** Go's zero value of `T`, returned by a `Get` that finds nothing. */
    const zero: T

    constructor (zero: T)
      ensures items == map[] && this.zero == zero
    {
      items := map[];
      this.zero := zero;
    }

    /** Stores `value` under `key`, expiring at `now + ttl`; an existing entry is overwritten. */
    method Set(key: string, value: T, ttl: int, now: int)
      modifies this
      ensures items == old(items)[key := CacheItem(value, now + ttl)]
    {
      items := items[key := CacheItem(value, now + ttl)];
    }

    /** Reads without changing anything: an expired entry reads as absent but stays in the map. */
    method Get(key: string, now: int) returns (value: T, found: bool)
      ensures found <==> key in items && now <= items[key].expiresAt
      ensures found ==> value == items[key].value
      ensures !found ==> value == zero
      ensures Find(items, key, now) == if found then Some(value) else None
    {
      if key !in items {
        return zero, false;
      }
      var item := items[key];
      if IsExpired(item, now) {
        return zero, false;
      }
      return item.value, true;
    }

    method Delete(key: string)
      modifies this
      ensures items == old(items) - {key}
    {
      items := items - {key};
    }

    /** `cleanupExpiredItems`: visits every key once and deletes the entries expired at `now`. */
    method CleanupExpiredItems(now: int)
      modifies this
      ensures items == Unexpired(old(items), now)
    {
      var pending := items.Keys;
      while pending != {}
        invariant pending <= old(items).Keys
        invariant items == map k | k in old(items) && (k in pending || !IsExpired(old(items)[k], now)) :: old(items)[k]
        decreases pending
      {
        var key :| key in pending;
        if IsExpired(items[key], now) {
          items := items - {key};
        }
        pending := pending - {key};
      }
    }
  }

  /** `Set` then `Get` at a time not after the expiry returns exactly the stored value. */
  lemma SetThenFind<T>(items: Items<T>, key: string, value: T, ttl: int, setAt: int, now: int)
    ensures Find(items[key := CacheItem(value, setAt + ttl)], key, now)
         == if now <= setAt + ttl then Some(value) else None
  {
  }

  /** At the instant of the `Set`, a zero TTL is still found and a negative TTL never is. */
  lemma TtlAtSetInstant<T>(items: Items<T>, key: string, value: T, ttl: int, now: int)
    ensures Find(items[key := CacheItem(value, now + ttl)], key, now).Some? <==> ttl >= 0
  {
  }

  /** A second `Set` on the same key wins, whatever the first one stored. */
  lemma LastWriteWins<T>(items: Items<T>, key: string, first: CacheItem<T>, second: CacheItem<T>)
    ensures items[key := first][key := second] == items[key := second]
  {
  }

  /** `Delete` makes its key absent and leaves every other key's lookup as it was. */
  lemma DeleteOnlyThatKey<T>(items: Items<T>, key: string, other: string, now: int)
    ensures Find(items - {key}, key, now) == None
    ensures other != key ==> Find(items - {key}, other, now) == Find(items, other, now)
  {
  }

  /** At a fixed `now`, a sweep changes no lookup's answer. */
  lemma SweepPreservesFind<T>(items: Items<T>, key: string, now: int)
    ensures Find(Unexpired(items, now), key, now) == Find(items, key, now)
  {
  }

  /** Sweeping twice at the same `now` is sweeping once. */
  lemma SweepIdempotent<T>(items: Items<T>, now: int)
    ensures Unexpired(Unexpired(items, now), now) == Unexpired(items, now)
  {
  }
}
