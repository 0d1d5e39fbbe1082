/** The process-wide settings store: each configuration key is bound once at
    start-up and then only read. A key is either absent ("unset") or present
    with the readings the store gives it as a string, an integer and a boolean.
    An absent key reads as the zero value of the requested type. */
module Settings {

  /** The typed readings of a key that is present in the store. */
  datatype Value = Value(text: string, number: int, flag: bool)

  type Store = map<string, Value>

  const KeyLogLevel := "log_level"
  const KeyLogJson := "log_json"
  const KeyLogGrpc := "log_grpc"
  const KeyListenAddr := "listen_addr"
  const KeyReportMetrics := "report_metrics"
  const KeyMetricsPort := "metrics_port"
  const KeyCacheTtlSeconds := "cache_ttl_seconds"
  const KeyCacheRefreshSeconds := "cache_refresh_seconds"
  const KeyCacheEntriesMax := "cache_entries_max"
  const KeyCacheRefreshRetries := "cache_refresh_retries"
  const KeyClientTimeoutSeconds := "client_timeout_seconds"
  const KeyAllowInsecureConn := "allow_insecure_conn"
  const KeyRootCA := "root_ca"
  const KeyClientCert := "client_cert"
  const KeyClientKey := "client_key"
  const KeyGrpcConnMaxSeconds := "grpc_conn_max_seconds"
  const KeyUseCachedBackend := "use_cached_backend"
  const KeyBackendFlushSeconds := "backend_cache_flush_interval_seconds"
  const KeyBackendFailClosed := "backend_cache_policy_fail_closed"

  predicate IsSet(s: Store, key: string) {
    key in s
  }

  function GetString(s: Store, key: string): string {
    if key in s then s[key].text else ""
  }

  function GetInt(s: Store, key: string): int {
    if key in s then s[key].number else 0
  }

  function GetBool(s: Store, key: string): bool {
    key in s && s[key].flag
  }

  /** The integer reading of `key` when it is set, `default` otherwise. */
  function IntOr(s: Store, key: string, default: int): int {
    if IsSet(s, key) then GetInt(s, key) else default
  }
}
