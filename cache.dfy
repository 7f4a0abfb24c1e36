/**
 * The front end's in-memory cache: entries keyed by string, each holding
 * its data, the time it was stored and the time it expires (milliseconds).
 * The clock is a parameter `now`. Data is Option<T>, None standing for a
 * stored `null`. An entry found expired by a read is deleted on the spot.
 */
module Cache {
  import opened Wrappers

  datatype CacheItem<T> = CacheItem(data: Option<T>, timestamp: int, expiry: int)

  /** Five minutes. */
  const DefaultTtl: int := 5 * 60 * 1000

  /** An entry is live at `now` unless `now` is past its expiry. */
  predicate Live<T>(item: CacheItem<T>, now: int) { now <= item.expiry }

  /** What `get` answers at `now`: the data of a live entry, otherwise null. */
  function Lookup<T>(entries: map<string, CacheItem<T>>, key: string, now: int): Option<T>
  {
    if key in entries && Live(entries[key], now) then entries[key].data else None
  }

  /** What `has` answers at `now`: whether a live entry exists. */
  predicate Present<T>(entries: map<string, CacheItem<T>>, key: string, now: int)
  {
    key in entries && Live(entries[key], now)
  }

  /** The entries still live at `now`. */
  function LiveEntries<T>(entries: map<string, CacheItem<T>>, now: int): (r: map<string, CacheItem<T>>)
    ensures r.Keys <= entries.Keys
    ensures forall k :: k in r ==> r[k] == entries[k] && Live(r[k], now)
  {
    map k | k in entries && Live(entries[k], now) :: entries[k]
  }

  class CacheService<T> {
    var entries: map<string, CacheItem<T>>

    constructor ()
      ensures entries == map[]
    {
      entries := map[];
    }

    /** Stores `data` under `key` until `now + ttl`, replacing any earlier entry; other keys are untouched. */
    method Set(key: string, data: Option<T>, ttl: int, now: int)
      modifies this
      ensures entries == old(entries)[key := CacheItem(data, now, now + ttl)]
      ensures Lookup(entries, key, now + ttl) == data && (ttl >= 0 ==> Lookup(entries, key, now) == data)
      ensures Lookup(entries, key, now + ttl + 1) == None
      ensures forall k :: k != key ==> Lookup(entries, k, now) == Lookup(old(entries), k, now)
    {
      entries := entries[key := CacheItem(data, now, now + ttl)];
    }

    /** `set` without a ttl: the entry lives for the default five minutes. */
    method SetDefault(key: string, data: Option<T>, now: int)
      modifies this
      ensures entries == old(entries)[key := CacheItem(data, now, now + DefaultTtl)]
      ensures Lookup(entries, key, now + DefaultTtl) == data && Lookup(entries, key, now + DefaultTtl + 1) == None
    {
      Set(key, data, DefaultTtl, now);
    }

    /** The data of a live entry, or null; an expired entry is deleted. */
    method Get(key: string, now: int) returns (r: Option<T>)
      modifies this
      ensures r == Lookup(old(entries), key, now)
      ensures entries == if key in old(entries) && !Live(old(entries)[key], now) then old(entries) - {key} else old(entries)
      ensures forall k :: Lookup(entries, k, now) == Lookup(old(entries), k, now)
    {
      if key !in entries {
        return None;
      }
      var item := entries[key];
      if now > item.expiry {
        entries := entries - {key};
        return None;
      }
      r := item.data;
    }

    /** Whether a live entry exists; an expired entry is deleted. */
    method Has(key: string, now: int) returns (b: bool)
      modifies this
      ensures b == Present(old(entries), key, now)
      ensures entries == if key in old(entries) && !Live(old(entries)[key], now) then old(entries) - {key} else old(entries)
    {
      if key !in entries {
        return false;
      }
      var item := entries[key];
      if now > item.expiry {
        entries := entries - {key};
        return false;
      }
      b := true;
    }

    method Delete(key: string)
      modifies this
      ensures entries == old(entries) - {key}
      ensures key !in entries
      ensures forall k, now :: k != key ==> Lookup(entries, k, now) == Lookup(old(entries), k, now)
    {
      entries := entries - {key};
    }

    method Clear()
      modifies this
      ensures entries == map[]
    {
      entries := map[];
    }

    /** Deletes, one key at a time, every entry that expired before `now`, and keeps all others. */
    method CleanExpired(now: int)
      modifies this
      ensures entries == LiveEntries(old(entries), now)
    {
      var pending := entries.Keys;
      while pending != {}
        invariant pending <= old(entries).Keys
        invariant entries.Keys <= old(entries).Keys
        invariant forall k :: k in entries ==> entries[k] == old(entries)[k]
        invariant forall k :: k in old(entries) && k !in pending ==> (k in entries <==> Live(old(entries)[k], now))
        invariant forall k :: k in pending ==> k in entries
        decreases pending
      {
        var key :| key in pending;
        if now > entries[key].expiry {
          entries := entries - {key};
        }
        pending := pending - {key};
      }
    }
  }

  /** For data that is not null, `has` and `get` agree on every key. */
  lemma HasAgreesWithGet<T>(entries: map<string, CacheItem<T>>, key: string, now: int)
    requires key in entries ==> entries[key].data.Some?
    ensures Present(entries, key, now) <==> Lookup(entries, key, now).Some?
  {
  }

  /** A stored null makes `get` answer null although `has` answers true. */
  lemma StoredNullIsPresent<T>(entries: map<string, CacheItem<T>>, key: string, now: int)
    requires key in entries && entries[key].data.None? && Live(entries[key], now)
    ensures Present(entries, key, now) && Lookup(entries, key, now).None?
  {
  }

  /**
   * Cleaning at `now` changes no answer `get` gives then or later: whatever
   * it removes had already expired.
   */
  lemma CleaningIsUnobservable<T>(entries: map<string, CacheItem<T>>, now: int, later: int, key: string)
    requires now <= later
    ensures Lookup(LiveEntries(entries, now), key, later) == Lookup(entries, key, later)
  {
  }

  /** Cleaning twice at the same time removes nothing more. */
  lemma CleaningIsIdempotent<T>(entries: map<string, CacheItem<T>>, now: int)
    ensures LiveEntries(LiveEntries(entries, now), now) == LiveEntries(entries, now)
  {
  }
}
