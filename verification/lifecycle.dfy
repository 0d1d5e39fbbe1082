/** The server's entry point: the listen address and keep-alive age, the
    assembly of the adapter from the resolved configuration, and the loop
    that supervises the running server until it stops or fails. */
module Lifecycle {
  import opened Settings
  import opened Outcomes
  import opened Metrics
  import opened Client
  import opened SystemCache
  import opened Backend

  const DefaultListenAddr := "3333"
  const DefaultKeepAliveSeconds := 60

  /** `listen_addr` when set (even to ""), "3333" otherwise. */
  function ListenAddress(s: Store): (a: string)
    ensures KeyListenAddr in s ==> a == s[KeyListenAddr].text
    ensures KeyListenAddr !in s ==> a == "3333"
  {
    if IsSet(s, KeyListenAddr) then GetString(s, KeyListenAddr) else DefaultListenAddr
  }

  /** The connection keep-alive age in seconds: one minute unless
      `grpc_conn_max_seconds` is set. */
  function KeepAliveSeconds(s: Store): (k: int)
    ensures KeyGrpcConnMaxSeconds in s ==> k == s[KeyGrpcConnMaxSeconds].number
    ensures KeyGrpcConnMaxSeconds !in s ==> k == 60
  {
    IntOr(s, KeyGrpcConnMaxSeconds, DefaultKeepAliveSeconds)
  }

  /** Everything the adapter server is constructed from. */
  datatype Adapter = Adapter(
    listenAddr: string,
    keepAliveMaxAgeSeconds: int,
    client: HttpClient,
    cache: SystemCacheConfig,
    backend: BackendConfig,
    metrics: Option<MetricsReporter>)

  /** Start-up. The authorizer's arguments are resolved in order (client,
      cache, backend, metrics), so a client failure is reported before a
      metrics listener failure; then the server is constructed, which
      `serverStarts` says succeeds or not. */
  function Startup(s: Store, p: Platform, metricsListens: bool, serverStarts: bool): (r: Outcome<Adapter>)
    ensures ClientFor(s, p).Fatal? ==> r == Fatal(ClientFor(s, p).reason)
    ensures ClientFor(s, p).Ok? && ParseMetricsConfig(s, metricsListens).Fatal? ==> r == Fatal(MetricsListenFailed)
    ensures ClientFor(s, p).Ok? && ParseMetricsConfig(s, metricsListens).Ok? && !serverStarts ==>
              r == Fatal(ServerStartFailed)
    ensures r.Ok? <==> ClientFor(s, p).Ok? && ParseMetricsConfig(s, metricsListens).Ok? && serverStarts
    ensures r.Ok? ==>
              r.value.listenAddr == ListenAddress(s)
              && r.value.keepAliveMaxAgeSeconds == KeepAliveSeconds(s)
              && r.value.client == ClientFor(s, p).value
              && r.value.cache == CacheConfigFor(s)
              && r.value.backend == CreateBackendConfig(s)
              && r.value.metrics == ParseMetricsConfig(s, metricsListens).value
  {
    var addr := ListenAddress(s);
    var keepAlive := KeepAliveSeconds(s);
    match ClientFor(s, p)
    case Fatal(reason) => Fatal(reason)
    case Ok(client) =>
      var cache := CacheConfigFor(s);
      var backend := CreateBackendConfig(s);
      match ParseMetricsConfig(s, metricsListens)
      case Fatal(reason) => Fatal(reason)
      case Ok(metrics) =>
        if !serverStarts then Fatal(ServerStartFailed)
        else Ok(Adapter(addr, keepAlive, client, cache, backend, metrics))
  }

  /** With no setting at all: port "3333", a one-minute keep-alive, a 10 s
      client on the default transport, the default cache, no backend caching
      and no metrics reporter. */
  lemma NoSettingsDefaults(p: Platform, metricsListens: bool)
    ensures Startup(map[], p, metricsListens, true)
            == Ok(Adapter("3333", 60, HttpClient(10, None), SystemCacheConfig(1000, 1, 180, 300),
                          BackendConfig(false, 0, None), None))
  {
  }

  // ---------------------------------------------------------------------
  // Shutdown supervision

  /** What the supervision loop can receive: a termination signal (together
      with whether the graceful close it triggers fails), or the serving
      loop's exit report (with whether it carries an error). */
  datatype Event = Signal(closeFails: bool) | ServerExit(failed: bool)

  /** The calls the loop makes on the authorizer and on the server. */
  datatype Call = AuthShutdown | Close

  /** `Waiting`: the events ran out and the loop is still waiting. */
  datatype Ending = Waiting | Stopped | Failed(reason: FatalReason)

  datatype Trace = Trace(calls: seq<Call>, ending: Ending)

  /** An event after which the loop does not wait any more. */
  predicate Ends(e: Event) {
    e.ServerExit? || e.closeFails
  }

  function EndingOf(e: Event): Ending {
    match e
    case ServerExit(failed) => if failed then Failed(ServerExitedWithError) else Stopped
    case Signal(closeFails) => if closeFails then Failed(GracefulShutdownFailed) else Waiting
  }

  /** The loop as a value: each signal shuts the authorizer down and then
      closes the server; a server exit makes no call. */
  function Run(events: seq<Event>): (r: Trace)
    ensures r.ending == Waiting <==> forall k :: 0 <= k < |events| ==> !Ends(events[k])
    ensures events != [] && Ends(events[0]) ==> r.ending == EndingOf(events[0])
  {
    if events == [] then Trace([], Waiting)
    else match events[0]
      case ServerExit(failed) =>
        Trace([], if failed then Failed(ServerExitedWithError) else Stopped)
      case Signal(closeFails) =>
        if closeFails then Trace([AuthShutdown, Close], Failed(GracefulShutdownFailed))
        else
          var rest := Run(events[1..]);
          Trace([AuthShutdown, Close] + rest.calls, rest.ending)
  }

  /** `n` rounds of shutting the authorizer down and closing the server. */
  function Rounds(n: nat): (r: seq<Call>)
    ensures |r| == 2 * n
  {
    if n == 0 then [] else [AuthShutdown, Close] + Rounds(n - 1)
  }

  /** Waits for events one at a time: on a signal, calls the authorizer's
      shutdown hook and then closes the server, failing if the close fails
      and waiting again otherwise; on a server exit, stops cleanly or fails
      depending on the error. */
  method Supervise(events: seq<Event>) returns (calls: seq<Call>, ending: Ending)
    ensures Trace(calls, ending) == Run(events)
  {
    calls, ending := [], Waiting;
    var i := 0;
    while i < |events| && ending == Waiting
      invariant 0 <= i <= |events|
      invariant ending == Waiting ==> Run(events) == Trace(calls + Run(events[i..]).calls, Run(events[i..]).ending)
      invariant ending != Waiting ==> Run(events) == Trace(calls, ending)
      decreases |events| - i
    {
      match events[i] {
        case Signal(closeFails) =>
          calls := calls + [AuthShutdown];
          calls := calls + [Close];
          if closeFails {
            ending := Failed(GracefulShutdownFailed);
          }
        case ServerExit(failed) =>
          if failed {
            ending := Failed(ServerExitedWithError);
          } else {
            ending := Stopped;
          }
      }
      i := i + 1;
    }
  }

  /** The loop ends at the first event that ends it, having made one round
      of calls for each signal up to and including that event; a clean
      server exit makes no call of its own. */
  lemma {:induction false} RunEndsAtFirstEnd(events: seq<Event>, j: nat)
    requires j < |events| && Ends(events[j])
    requires forall k :: 0 <= k < j ==> !Ends(events[k])
    ensures Run(events).ending == EndingOf(events[j])
    ensures Run(events).calls == Rounds(if events[j].Signal? then j + 1 else j)
  {
    if j > 0 {
      assert !Ends(events[0]);
      assert events[1..][j - 1] == events[j];
      RunEndsAtFirstEnd(events[1..], j - 1);
    }
  }

  /** Without an ending event the loop is still waiting, after one round of
      calls per signal: repeated signals are not deduplicated. */
  lemma {:induction false} RunWithoutEndKeepsWaiting(events: seq<Event>)
    requires forall k :: 0 <= k < |events| ==> !Ends(events[k])
    ensures Run(events) == Trace(Rounds(|events|), Waiting)
  {
    if events != [] {
      assert !Ends(events[0]);
      RunWithoutEndKeepsWaiting(events[1..]);
    }
  }

  /** Every call sequence alternates, the authorizer's shutdown first and
      the server's close second. */
  lemma {:induction false} RoundsAlternate(n: nat, i: nat)
    requires i < 2 * n
    ensures Rounds(n)[i] == if i % 2 == 0 then AuthShutdown else Close
  {
    if i >= 2 {
      RoundsAlternate(n - 1, i - 2);
    }
  }

  /** The calls of any run are whole rounds. */
  lemma {:induction false} RunMakesWholeRounds(events: seq<Event>)
    ensures exists n: nat :: Run(events).calls == Rounds(n)
  {
    if events == [] {
      assert Run(events).calls == Rounds(0);
    } else if events[0].ServerExit? {
      assert Run(events).calls == Rounds(0);
    } else if events[0].closeFails {
      assert Run(events).calls == Rounds(1);
    } else {
      RunMakesWholeRounds(events[1..]);
      var n: nat :| Run(events[1..]).calls == Rounds(n);
      assert Run(events).calls == Rounds(n + 1);
    }
  }

  /** Once the loop has ended, later events change nothing. */
  lemma {:induction false} EventsAfterEndIgnored(events: seq<Event>, more: seq<Event>)
    requires Run(events).ending != Waiting
    ensures Run(events + more) == Run(events)
  {
    assert events != [];
    assert (events + more)[0] == events[0];
    if events[0].Signal? && !events[0].closeFails {
      assert (events + more)[1..] == events[1..] + more;
      EventsAfterEndIgnored(events[1..], more);
    }
  }

  /** The process as a whole: a start-up failure ends it before the loop
      runs; otherwise the loop decides. */
  function Process(s: Store, p: Platform, metricsListens: bool, serverStarts: bool, events: seq<Event>): (t: Trace)
    ensures Startup(s, p, metricsListens, serverStarts).Fatal? ==>
              t == Trace([], Failed(Startup(s, p, metricsListens, serverStarts).reason))
    ensures Startup(s, p, metricsListens, serverStarts).Ok? ==> t == Run(events)
  {
    match Startup(s, p, metricsListens, serverStarts)
    case Fatal(reason) => Trace([], Failed(reason))
    case Ok(_) => Run(events)
  }

  /** A clean exit report as the first event: stopped, with no call. */
  lemma CleanExitStops(more: seq<Event>)
    ensures Run([ServerExit(false)] + more) == Trace([], Stopped)
  {
  }

  /** A signal whose close fails: one round of calls, then a fatal end. */
  lemma FailedCloseIsFatal(more: seq<Event>)
    ensures Run([Signal(true)] + more) == Trace([AuthShutdown, Close], Failed(GracefulShutdownFailed))
  {
  }
}
