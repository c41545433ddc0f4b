/**
 * The cache check of the background syncer (app/syncer.py): a sync function
 * runs only when its cached value is missing or empty, or its key has
 * expired. The cache is an object the syncer reads; the sync functions
 * themselves are recorded as invocations rather than run.
 */
module Syncer {
  import opened Wrappers

  /** The key/value cache: stored strings and their remaining time to live. */
  class Cache {
    var values: map<string, string>
    /** `CACHE.ttl(key)`; a key without an entry here reads as None. */
    var ttls: map<string, int>

    constructor(values: map<string, string>, ttls: map<string, int>)
      ensures this.values == values && this.ttls == ttls
    {
      this.values := values;
      this.ttls := ttls;
    }

    function Get(key: string): (r: Option<string>)
      reads this
      ensures r.Some? <==> key in values
      ensures r.Some? ==> r.value == values[key]
    {
      if key in values then Some(values[key]) else None
    }

    function Ttl(key: string): (r: Option<int>)
      reads this
      ensures r.Some? <==> key in ttls
      ensures r.Some? ==> r.value == ttls[key]
    {
      if key in ttls then Some(ttls[key]) else None
    }
  }

  /** `is_cache_expired` on a ttl already read: no ttl, or none left. */
  predicate Expired(ttl: Option<int>) {
    ttl.None? || ttl.value <= 0
  }

  /** `is_cache_expired(key)`. */
  predicate IsCacheExpired(cache: Cache, key: string)
    reads cache
  {
    Expired(cache.Ttl(key))
  }

  /** A key is live exactly when it has a positive ttl. */
  lemma LiveIffPositiveTtl(cache: Cache, key: string)
    ensures !IsCacheExpired(cache, key) <==> key in cache.ttls && cache.ttls[key] > 0
  {
  }

  /** The branch `sync_with_cache` takes: a falsy cached value or an expired key syncs. */
  predicate NeedsSync(cached: Option<string>, ttl: Option<int>) {
    !(cached.Some? && cached.value != "" && !Expired(ttl))
  }

  /** A present, non-empty and unexpired entry is the only thing that skips a sync. */
  lemma SkipIffFresh(cached: Option<string>, ttl: Option<int>)
    ensures !NeedsSync(cached, ttl) <==> cached.Some? && |cached.value| > 0 && ttl.Some? && ttl.value > 0
  {
  }

  /** The sync functions that ran, in order, each with its arguments. */
  class SyncLog {
    var calls: seq<(string, seq<string>)>

    constructor()
      ensures calls == []
    {
      calls := [];
    }

    /** `sync_function(*args)`. */
    method Invoke(syncFunction: string, args: seq<string>)
      modifies this
      ensures calls == old(calls) + [(syncFunction, args)]
    {
      calls := calls + [(syncFunction, args)];
    }
  }

  /**
   * `sync_with_cache(key, task_name, sync_function, *args)`: the sync
   * function runs once with the arguments when the cached value is falsy
   * or the key expired; otherwise nothing runs. The cache is only read.
   */
  method SyncWithCache(cache: Cache, key: string, taskName: string, syncFunction: string, args: seq<string>, log: SyncLog)
    returns (synced: bool)
    modifies log
    ensures synced <==> NeedsSync(cache.Get(key), cache.Ttl(key))
    ensures synced ==> log.calls == old(log.calls) + [(syncFunction, args)]
    ensures !synced ==> log.calls == old(log.calls)
  {
    var cachedDataStr := cache.Get(key);
    if cachedDataStr.Some? && cachedDataStr.value != "" && !IsCacheExpired(cache, key) {
      synced := false;
    } else {
      log.Invoke(syncFunction, args);
      synced := true;
    }
  }
}
