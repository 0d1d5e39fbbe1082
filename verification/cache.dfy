/** The response cache configuration: four settings, each with its own
    default. */
module SystemCache {
  import opened Settings

  const DefaultSystemCacheRetries := 1
  const DefaultSystemCacheTtlSeconds := 300
  const DefaultSystemCacheRefreshIntervalSeconds := 180
  const DefaultSystemCacheSize := 1000

  /** Durations are whole seconds. */
  datatype SystemCacheConfig = SystemCacheConfig(
    maxSize: int,
    numRetryFailedRefresh: int,
    refreshIntervalSeconds: int,
    ttlSeconds: int)

  /** The configuration as a value: each field is its own setting when that
      is set and its default when it is not. */
  function CacheConfigFor(s: Store): (c: SystemCacheConfig)
    ensures c.ttlSeconds == (if KeyCacheTtlSeconds in s then s[KeyCacheTtlSeconds].number else 300)
    ensures c.refreshIntervalSeconds == (if KeyCacheRefreshSeconds in s then s[KeyCacheRefreshSeconds].number else 180)
    ensures c.maxSize == (if KeyCacheEntriesMax in s then s[KeyCacheEntriesMax].number else 1000)
    ensures c.numRetryFailedRefresh == (if KeyCacheRefreshRetries in s then s[KeyCacheRefreshRetries].number else 1)
  {
    SystemCacheConfig(
      IntOr(s, KeyCacheEntriesMax, DefaultSystemCacheSize),
      IntOr(s, KeyCacheRefreshRetries, DefaultSystemCacheRetries),
      IntOr(s, KeyCacheRefreshSeconds, DefaultSystemCacheRefreshIntervalSeconds),
      IntOr(s, KeyCacheTtlSeconds, DefaultSystemCacheTtlSeconds))
  }

  /** Starts from the four defaults and overwrites each one whose setting is
      present. The shutdown channel handed to the cache is not modelled. */
  method CreateSystemCache(s: Store) returns (c: SystemCacheConfig)
    ensures c == CacheConfigFor(s)
  {
    var cacheTtl := DefaultSystemCacheTtlSeconds;
    var cacheEntriesMax := DefaultSystemCacheSize;
    var cacheUpdateRetries := DefaultSystemCacheRetries;
    var cacheRefreshInterval := DefaultSystemCacheRefreshIntervalSeconds;

    if IsSet(s, KeyCacheTtlSeconds) {
      cacheTtl := GetInt(s, KeyCacheTtlSeconds);
    }
    if IsSet(s, KeyCacheRefreshSeconds) {
      cacheRefreshInterval := GetInt(s, KeyCacheRefreshSeconds);
    }
    if IsSet(s, KeyCacheEntriesMax) {
      cacheEntriesMax := GetInt(s, KeyCacheEntriesMax);
    }
    if IsSet(s, KeyCacheRefreshRetries) {
      cacheUpdateRetries := GetInt(s, KeyCacheRefreshRetries);
    }

    c := SystemCacheConfig(cacheEntriesMax, cacheUpdateRetries, cacheRefreshInterval, cacheTtl);
  }

  /** Each field depends on its own key only: two stores that agree on one
      cache key (both unset, or both set to the same number) give the same
      value for that field, whatever the other three keys hold. */
  lemma FieldsAreIndependent(s1: Store, s2: Store)
    ensures (IsSet(s1, KeyCacheTtlSeconds) == IsSet(s2, KeyCacheTtlSeconds)
             && GetInt(s1, KeyCacheTtlSeconds) == GetInt(s2, KeyCacheTtlSeconds))
            ==> CacheConfigFor(s1).ttlSeconds == CacheConfigFor(s2).ttlSeconds
    ensures (IsSet(s1, KeyCacheRefreshSeconds) == IsSet(s2, KeyCacheRefreshSeconds)
             && GetInt(s1, KeyCacheRefreshSeconds) == GetInt(s2, KeyCacheRefreshSeconds))
            ==> CacheConfigFor(s1).refreshIntervalSeconds == CacheConfigFor(s2).refreshIntervalSeconds
    ensures (IsSet(s1, KeyCacheEntriesMax) == IsSet(s2, KeyCacheEntriesMax)
             && GetInt(s1, KeyCacheEntriesMax) == GetInt(s2, KeyCacheEntriesMax))
            ==> CacheConfigFor(s1).maxSize == CacheConfigFor(s2).maxSize
    ensures (IsSet(s1, KeyCacheRefreshRetries) == IsSet(s2, KeyCacheRefreshRetries)
             && GetInt(s1, KeyCacheRefreshRetries) == GetInt(s2, KeyCacheRefreshRetries))
            ==> CacheConfigFor(s1).numRetryFailedRefresh == CacheConfigFor(s2).numRetryFailedRefresh
  {
  }

  /** With none of the four keys set, the defaults 1000 entries, 1 retry,
      a 180 s refresh interval and a 300 s TTL. */
  lemma UnsetCacheDefaults(s: Store)
    requires !IsSet(s, KeyCacheTtlSeconds) && !IsSet(s, KeyCacheRefreshSeconds)
    requires !IsSet(s, KeyCacheEntriesMax) && !IsSet(s, KeyCacheRefreshRetries)
    ensures CacheConfigFor(s) == SystemCacheConfig(1000, 1, 180, 300)
  {
  }
}
