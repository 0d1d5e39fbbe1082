/** The backend caching policy: whether calls to the backend are cached,
    how often the cache is flushed, and what happens when the backend fails. */
module Backend {
  import opened Settings
  import opened Outcomes

  const DefaultBackendCacheFlushIntervalSeconds := 15

  datatype FailurePolicy = FailOpenPolicy | FailClosedPolicy

  /** `cacheFlushIntervalSeconds == 0` and `policy == None` stand for the
      fields being left at their zero values. */
  datatype BackendConfig = BackendConfig(
    enableCaching: bool,
    cacheFlushIntervalSeconds: int,
    policy: Option<FailurePolicy>)

  /** Fail-open only on an explicit false; an absent key keeps fail-closed. */
  function GetFailurePolicy(s: Store): (p: FailurePolicy)
    ensures p == FailOpenPolicy <==> KeyBackendFailClosed in s && !s[KeyBackendFailClosed].flag
    ensures p == FailClosedPolicy <==> KeyBackendFailClosed !in s || s[KeyBackendFailClosed].flag
  {
    if IsSet(s, KeyBackendFailClosed) && !GetBool(s, KeyBackendFailClosed) then FailOpenPolicy
    else FailClosedPolicy
  }

  /** The flush interval is the setting in seconds, with 15 s substituted
      exactly when that is zero (unset or set to 0). */
  function CreateBackendConfig(s: Store): (c: BackendConfig)
    ensures c.enableCaching <==> KeyUseCachedBackend in s && s[KeyUseCachedBackend].flag
    ensures !c.enableCaching ==> c == BackendConfig(false, 0, None)
    ensures c.enableCaching ==> c.cacheFlushIntervalSeconds != 0
    ensures c.enableCaching ==> (c.cacheFlushIntervalSeconds == 15 <==> GetInt(s, KeyBackendFlushSeconds) in {0, 15})
    ensures c.enableCaching && GetInt(s, KeyBackendFlushSeconds) != 0 ==>
              c.cacheFlushIntervalSeconds == GetInt(s, KeyBackendFlushSeconds)
    ensures c.enableCaching ==> c.policy.Some?
    ensures c.enableCaching ==>
              (c.policy.value == FailOpenPolicy <==> KeyBackendFailClosed in s && !s[KeyBackendFailClosed].flag)
  {
    if GetBool(s, KeyUseCachedBackend) then
      var interval := GetInt(s, KeyBackendFlushSeconds);
      var interval := if interval == 0 then DefaultBackendCacheFlushIntervalSeconds else interval;
      BackendConfig(true, interval, Some(GetFailurePolicy(s)))
    else
      BackendConfig(false, 0, None)
  }

  /** Turning caching on with the flush interval unset gives exactly 15 s. */
  lemma UnsetFlushIntervalIsFifteen(s: Store)
    requires GetBool(s, KeyUseCachedBackend) && !IsSet(s, KeyBackendFlushSeconds)
    ensures CreateBackendConfig(s).cacheFlushIntervalSeconds == 15
  {
  }

  /** The fail-closed key is consulted only when caching is on: with caching
      off, the configuration is the same whatever that key holds. */
  lemma PolicyIrrelevantWhenCachingOff(s: Store, v: Value)
    requires !GetBool(s, KeyUseCachedBackend)
    ensures CreateBackendConfig(s[KeyBackendFailClosed := v]) == CreateBackendConfig(s)
  {
  }
}
