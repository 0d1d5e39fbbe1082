# 3scale Istio adapter: start-up configuration and shutdown supervision

This project models the decision logic of the adapter server's entry point
(`cmd/server/main.go`) in Dafny:

- how the settings store (keys bound from the environment, each either unset
  or present) is resolved into the runtime policy: the log level and the RPC
  logger gate, the metrics sideband, the outbound HTTP client with its layered
  TLS configuration, the response cache configuration, the backend caching
  policy, the listen address and the connection keep-alive age;
- how every fatal log line becomes an `Outcome.Fatal(reason)` value instead of
  a process exit;
- the `for`/`select` loop that supervises the running server: a termination
  signal makes it call the authorizer's shutdown hook and then close the
  server, and the server's exit report ends it.

Modules, one per component: `Settings` (the store and its typed getters),
`Outcomes` (fatal reasons, `Option`, `Outcome`), `Logging`, `Metrics`,
`Client`, `SystemCache`, `Backend`, `Lifecycle`.

The three parts of the source that build state step by step are imperative
methods. Each is proved equal to a declarative definition, and the
properties are proved as lemmas about that definition:

- `Client.ParseClientConfig` is proved equal to `Client.ClientFor`;
- `SystemCache.CreateSystemCache` is proved equal to `SystemCache.CacheConfigFor`;
- `Lifecycle.Supervise` is proved equal to `Lifecycle.Run`.

The single-decision resolvers are plain functions.

Abstractions:

- A present key carries three readings: its string, its integer and its
  boolean. Converting the environment string into these readings is the
  settings library's job and is not modelled. An unset key reads as `""`, `0`
  and `false`, as the library's getters return.
- Durations are whole seconds.
- The file system, the platform certificate pool, PEM appending and key-pair
  loading are a `Client.Platform` record. It says whether the system pool
  loads, which paths are readable, which files append certificates and which
  certificate/key path pairs load.
- Binding the metrics listener and constructing the adapter server are
  boolean inputs (`metricsListens`, `serverStarts`).
- A signal event carries the outcome of the close call it triggers:
  `Signal(closeFails)`.

Two behaviours of the code that a reader might not expect:

- `log_grpc` is read with `GetBool` (`cmd/server/main.go:77`), so an unset
  key silences the RPC library's logger; it stays on only when the key is
  set and true (`Logging.ConfigureLogging`, `Logging.UnsetLoggingDefaults`).
- Only `client_cert` triggers the pairing check (`cmd/server/main.go:170`),
  so `client_key` alone is ignored (`Client.ClientKeyAloneIgnored`).

## Model

| member | source | states |
|---|---|---|
| `Logging.Lower` | cmd/server/main.go:97 | ASCII case folding keeps the length, maps each upper-case letter to its lower-case letter and keeps every other character, position by position |
| `Logging.StringToLogLevel` | cmd/server/main.go:87-101 | the result's name is the folded input, or the result is Info and the folded input names no level |
| `Logging.LevelNameSelectsLevel` | cmd/server/main.go:89-98 | each of "debug", "info", "warn", "error", "none" selects its own level |
| `Logging.UpperCaseNameSelectsLevel` | cmd/server/main.go:97 | each level name written in capitals selects the same level (matching ignores case) |
| `Logging.EmptyNameSelectsInfo` | cmd/server/main.go:97-100 | the empty string selects Info |
| `Logging.ConfigureLogging` | cmd/server/main.go:70-85 | the level comes from `log_level`, JSON encoding from `log_json`, and the RPC logger is silenced unless `log_grpc` is set and true |
| `Logging.UnsetLoggingDefaults` | cmd/server/main.go:70-85 | with no logging key set: Info level, no JSON, RPC logger silenced |
| `Metrics.ParseMetricsConfig` | cmd/server/main.go:103-127 | no reporter unless `report_metrics` is set and true; fatal exactly when reporting is on and the listener fails; a reporter has `ReportMetrics` true and port `metrics_port` when set, else 8080 |
| `Metrics.ListenerIrrelevantWhenDisabled` | cmd/server/main.go:104-106 | with reporting off, no listener is bound, so a failing listener changes nothing |
| `Client.ClientFailure` | cmd/server/main.go:147-188 | no fatal reason exactly when the requested root CA is readable and appends, and a set `client_cert` comes with a set key, both paths non-empty and loadable; an unreadable requested root CA is reported first |
| `Client.ClientFor` | cmd/server/main.go:129-198 | fatal exactly when `ClientFailure` gives a reason, and then with that reason, so a readable, appendable root CA and a loadable certificate/key pair give a client; on success the timeout is the resolved one; a TLS override skips verification iff `allow_insecure_conn` is set and true, and has a trust pool iff `root_ca` names a non-empty path; a certificate is present iff `client_cert` is set, and then it is the single complete, loadable pair of non-empty paths; the default transport is kept only when no TLS key is in use |
| `Client.ParseClientConfig` | cmd/server/main.go:129-198 | the step-by-step builder (timeout, insecure flag, root CA, client certificate, transport) returns exactly `ClientFor`: the first fatal reason in step order, or the client |
| `Client.NoTlsSettingsNoOverride` | cmd/server/main.go:139-197 | with none of `allow_insecure_conn`, `root_ca`, `client_cert` set, the client has the resolved timeout and no TLS override |
| `Client.InsecureFlagActivatesTls` | cmd/server/main.go:142-145 | setting `allow_insecure_conn`, even to false, installs a TLS override whose skip-verify flag is the setting's value |
| `Client.ClientKeyAloneIgnored` | cmd/server/main.go:170-188 | without `client_cert`, the presence or value of `client_key` does not change the outcome |
| `Client.EmptyRootCAIsNoOp` | cmd/server/main.go:147-149 | `root_ca` set to "" gives the same outcome as `root_ca` unset |
| `Client.SystemPoolFailureNotFatal` | cmd/server/main.go:150-154 | a system pool that fails to load never changes whether the result is fatal; it only leaves the system roots out of the trust pool |
| `Client.RootCAOutcomes` | cmd/server/main.go:147-168 | an unreadable root CA is fatal, a file that appends no certificate is fatal, and on success the trust pool is the system roots (if loaded) plus that file, with a TLS override in use |
| `Client.ClientCertPairing` | cmd/server/main.go:170-188 | with `client_cert` set: an empty cert path or unset key is "both must be provided", an empty key path is its own error, and a pair that fails to load is fatal |
| `Client.InsecureWithEmptyRootCA` | cmd/server/main.go:139-168 | `allow_insecure_conn=true` with `root_ca=""` gives a 10 s client with a TLS override that skips verification and has no trust pool or certificate |
| `SystemCache.CacheConfigFor` | cmd/server/main.go:200-227 | each of TTL (300 s), refresh interval (180 s), max size (1000) and retries (1) is its setting when set and its default otherwise; `FieldsAreIndependent` and `UnsetCacheDefaults` are proved about it |
| `SystemCache.CreateSystemCache` | cmd/server/main.go:200-227 | overwriting the four defaults step by step gives exactly `CacheConfigFor`: each field its setting when set, its default otherwise |
| `SystemCache.FieldsAreIndependent` | cmd/server/main.go:206-220 | each cache field depends only on its own key: stores that agree on that key agree on that field |
| `SystemCache.UnsetCacheDefaults` | cmd/server/main.go:201-204 | with none of the four keys set, the configuration is 1000 entries, 1 retry, 180 s refresh, 300 s TTL |
| `Backend.GetFailurePolicy` | cmd/server/main.go:256-267 | fail-open iff `backend_cache_policy_fail_closed` is set and false; fail-closed iff it is unset or true |
| `Backend.CreateBackendConfig` | cmd/server/main.go:232-254 | caching is on iff `use_cached_backend` is set and true; off gives only defaults (no interval, no policy); on gives a non-zero interval that is the setting when non-zero and 15 s exactly when the setting is zero, plus the failure policy |
| `Backend.UnsetFlushIntervalIsFifteen` | cmd/server/main.go:235-239 | caching on with the flush interval unset gives exactly 15 s |
| `Backend.PolicyIrrelevantWhenCachingOff` | cmd/server/main.go:251-253 | with caching off, the fail-closed key does not affect the configuration |
| `Lifecycle.ListenAddress` | cmd/server/main.go:270-276 | `listen_addr` when set (even to ""), "3333" otherwise |
| `Lifecycle.KeepAliveSeconds` | cmd/server/main.go:278-281 | `grpc_conn_max_seconds` when set, 60 s otherwise |
| `Lifecycle.Startup` | cmd/server/main.go:269-298 | fatal reasons in resolution order (client, then metrics listener, then server construction); success exactly when none fails, with every part of the adapter taken from its resolver |
| `Lifecycle.NoSettingsDefaults` | cmd/server/main.go:269-298 | with no setting: port "3333", 60 s keep-alive, 10 s client on the default transport, cache {1000, 1, 180 s, 300 s}, backend caching off, no metrics reporter |
| `Lifecycle.Run` | cmd/server/main.go:312-330 | the loop is still waiting exactly when no event ends it, and an ending first event decides the ending; characterised by `RunEndsAtFirstEnd` and `RunWithoutEndKeepsWaiting` |
| `Lifecycle.Supervise` | cmd/server/main.go:312-330 | the event loop produces exactly the calls and ending of `Run` |
| `Lifecycle.RunEndsAtFirstEnd` | cmd/server/main.go:312-330 | the loop ends at the first ending event, with its ending (a clean exit stops, an error exit or failed close is fatal) and one round of calls per signal up to it; a server exit adds no call |
| `Lifecycle.RunWithoutEndKeepsWaiting` | cmd/server/main.go:312-321 | signals whose close succeeds leave the loop waiting, each making its own round of calls (no deduplication) |
| `Lifecycle.RoundsAlternate` | cmd/server/main.go:316-317 | in every round the authorizer's shutdown comes before the server's close |
| `Lifecycle.RunMakesWholeRounds` | cmd/server/main.go:314-320 | every run's calls are whole rounds of shutdown-then-close |
| `Lifecycle.EventsAfterEndIgnored` | cmd/server/main.go:318-328 | after the loop has ended (fatal or stopped), later events change nothing |
| `Lifecycle.Process` | cmd/server/main.go:283-330 | a start-up failure ends the process with that reason before any loop call; otherwise the loop decides |
| `Lifecycle.CleanExitStops` | cmd/server/main.go:322-328 | a clean exit report as first event stops the loop with no shutdown or close call |
| `Lifecycle.FailedCloseIsFatal` | cmd/server/main.go:314-320 | a signal whose close fails makes one shutdown-then-close round and ends fatally |

## Left out

- Binding keys to environment variables (`cmd/server/main.go:43-68`) and the
  library's conversion of environment strings into integers and booleans.
  The store is an immutable map of already-typed readings. The source reads
  `cache_refresh_retries` but never binds it; the model treats it as an
  ordinary key.
- Certificate handling: loading the system pool, reading files, parsing PEM
  and X.509 key pairs. These are the `Platform` oracle.
- Networking and HTTP: binding the metrics listener, serving the metrics
  endpoint and registering collectors. Only the on/off decision, the port
  and the listener outcome are modelled.
- `Metrics.ParseMetricsConfig`: the two callbacks in the reporter are not modelled.
- The constructors of the authorizer, the system cache, the backend client
  and the adapter server, `Run`, `Close`, the RPC logger and the logging
  library's `Configure` call. They appear only as recorded calls and outcomes.
- `SystemCache.CreateSystemCache`: the fresh shutdown channel handed to the
  cache is not modelled.
- Concurrency: goroutines, signal delivery and channels. The `select` becomes
  sequential processing of an event list, so the race between the two event
  sources is not modelled. Which signal arrived only affects a log line.
- Duration overflow: seconds are multiplied by 10^9 in 64-bit nanoseconds,
  and this wrap-around is not modelled. Durations are unbounded whole seconds.
- The version string placeholder and every informational log line.
- `Logging.Lower`: folds ASCII letters only, where the source lower-cases
  with Unicode rules. The level chosen is the same for every string: the
  only non-ASCII characters Go lower-cases to ASCII letters are U+0130 (to
  `i`) and U+212A (to `k`); no level name contains `k`, and the only name
  containing `i` is "info", which is also the fallback level.
