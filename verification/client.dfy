/** The outbound HTTP client used to reach the backend: its timeout and the
    optional TLS configuration built in layers from the settings. The file
    system, the platform certificate pool and certificate parsing are given
    by a `Platform` record that says which of those operations succeed. */
module Client {
  import opened Settings
  import opened Outcomes

  const DefaultClientTimeoutSeconds := 10

  /** What the platform answers: whether the system certificate pool loads,
      which paths can be read, which readable files hold PEM data that
      appends at least one certificate, and which certificate/key path pairs
      load as a key pair. */
  datatype Platform = Platform(
    systemPoolLoads: bool,
    readableFiles: set<string>,
    pemFiles: set<string>,
    keyPairs: set<(string, string)>)

  /** A trust pool: the system roots (when they loaded) plus the PEM files
      appended to it. */
  datatype CertPool = CertPool(systemRoots: bool, appended: seq<string>)

  /** A client certificate, named by the paths it was loaded from. */
  datatype Certificate = Certificate(certFile: string, keyFile: string)

  datatype TlsConfig = TlsConfig(
    insecureSkipVerify: bool,
    rootCAs: Option<CertPool>,
    certificates: seq<Certificate>)

  /** `transport == None` is the platform's default transport; `Some(t)` is
      a transport carrying the TLS configuration `t`. */
  datatype HttpClient = HttpClient(timeoutSeconds: int, transport: Option<TlsConfig>)

  /** The timeout: 10 s unless `client_timeout_seconds` is set. */
  function ClientTimeout(s: Store): int {
    IntOr(s, KeyClientTimeoutSeconds, DefaultClientTimeoutSeconds)
  }

  /** A root CA is loaded only when `root_ca` is set to a non-empty path. */
  predicate WantsRootCA(s: Store) {
    IsSet(s, KeyRootCA) && GetString(s, KeyRootCA) != ""
  }

  /** Whether any TLS step marks the configuration as in use (on a run that
      does not fail): the insecure flag is set, a root CA is loaded, or a
      client certificate is loaded. */
  predicate UsesTlsConfig(s: Store) {
    IsSet(s, KeyAllowInsecureConn) || WantsRootCA(s) || IsSet(s, KeyClientCert)
  }

  /** The first fatal condition met, in the order the steps run: the root CA
      file first, then the certificate/key pairing, then the key pair load. */
  function ClientFailure(s: Store, p: Platform): (r: Option<FatalReason>)
    ensures r.None? <==>
              (WantsRootCA(s) ==> s[KeyRootCA].text in p.readableFiles && s[KeyRootCA].text in p.pemFiles)
              && (KeyClientCert in s ==>
                    KeyClientKey in s && s[KeyClientCert].text != "" && s[KeyClientKey].text != ""
                    && (s[KeyClientCert].text, s[KeyClientKey].text) in p.keyPairs)
    ensures r == Some(RootCAUnreadable) <==> WantsRootCA(s) && s[KeyRootCA].text !in p.readableFiles
  {
    var rootCA := GetString(s, KeyRootCA);
    var certFile := GetString(s, KeyClientCert);
    var keyFile := GetString(s, KeyClientKey);
    if WantsRootCA(s) && rootCA !in p.readableFiles then Some(RootCAUnreadable)
    else if WantsRootCA(s) && rootCA !in p.pemFiles then Some(RootCAUnparsable)
    else if IsSet(s, KeyClientCert) && (certFile == "" || !IsSet(s, KeyClientKey)) then Some(CertKeyNotPaired)
    else if IsSet(s, KeyClientCert) && keyFile == "" then Some(EmptyClientKey)
    else if IsSet(s, KeyClientCert) && (certFile, keyFile) !in p.keyPairs then Some(KeyPairInvalid)
    else None
  }

  /** The TLS configuration field by field, on a run that does not fail. */
  function TlsConfigFor(s: Store, p: Platform): TlsConfig {
    TlsConfig(
      GetBool(s, KeyAllowInsecureConn),
      if WantsRootCA(s) then Some(CertPool(p.systemPoolLoads, [GetString(s, KeyRootCA)])) else None,
      if IsSet(s, KeyClientCert) then [Certificate(GetString(s, KeyClientCert), GetString(s, KeyClientKey))] else [])
  }

  /** The client as a value: the first fatal condition, or the timeout and,
      when some step used it, the TLS configuration. */
  function ClientFor(s: Store, p: Platform): (r: Outcome<HttpClient>)
    ensures r.Fatal? <==> ClientFailure(s, p).Some?
    ensures r.Fatal? ==> r.reason == ClientFailure(s, p).value
    ensures r.Ok? ==> r.value.timeoutSeconds == ClientTimeout(s)
    ensures r.Ok? && r.value.transport.Some? ==>
              var t := r.value.transport.value;
              // no partial credentials: a certificate only from a complete, loadable pair
              (t.certificates != [] <==> KeyClientCert in s)
              && (t.certificates != [] ==>
                    KeyClientKey in s
                    && t.certificates == [Certificate(s[KeyClientCert].text, s[KeyClientKey].text)]
                    && s[KeyClientCert].text != "" && s[KeyClientKey].text != ""
                    && (s[KeyClientCert].text, s[KeyClientKey].text) in p.keyPairs)
    ensures r.Ok? && r.value.transport.Some? ==>
              // what no setting asked for stays off
              (r.value.transport.value.insecureSkipVerify <==> KeyAllowInsecureConn in s && s[KeyAllowInsecureConn].flag)
              && (r.value.transport.value.rootCAs.Some? <==> WantsRootCA(s))
    ensures r.Ok? && r.value.transport.None? ==>
              KeyAllowInsecureConn !in s && KeyClientCert !in s && GetString(s, KeyRootCA) == ""
  {
    match ClientFailure(s, p)
    case Some(reason) => Fatal(reason)
    case None => Ok(HttpClient(ClientTimeout(s), if UsesTlsConfig(s) then Some(TlsConfigFor(s, p)) else None))
  }

  /** Builds the client step by step: the timeout, then the insecure flag,
      the root CA and the client certificate, each layering onto the TLS
      configuration and the flag that says it is in use; the transport is
      replaced only when that flag ends up set. */
  method ParseClientConfig(s: Store, p: Platform) returns (r: Outcome<HttpClient>)
    ensures r == ClientFor(s, p)
  {
    var timeout := DefaultClientTimeoutSeconds;
    if IsSet(s, KeyClientTimeoutSeconds) {
      timeout := GetInt(s, KeyClientTimeoutSeconds);
    }

    var tlsConfig := TlsConfig(false, None, []);
    var useTlsConfig := false;

    if IsSet(s, KeyAllowInsecureConn) {
      tlsConfig := tlsConfig.(insecureSkipVerify := GetBool(s, KeyAllowInsecureConn));
      useTlsConfig := true;
    }

    if IsSet(s, KeyRootCA) {
      var rootCAPath := GetString(s, KeyRootCA);
      if rootCAPath != "" {
        // a pool that fails to load is replaced by an empty one, not fatal
        var pool := CertPool(p.systemPoolLoads, []);
        if rootCAPath !in p.readableFiles {
          return Fatal(RootCAUnreadable);
        }
        if rootCAPath in p.pemFiles {
          pool := pool.(appended := pool.appended + [rootCAPath]);
          assert pool.appended == [rootCAPath];
          tlsConfig := tlsConfig.(rootCAs := Some(pool));
          useTlsConfig := true;
        } else {
          return Fatal(RootCAUnparsable);
        }
      }
    }

    if IsSet(s, KeyClientCert) {
      var clientCertFile := GetString(s, KeyClientCert);
      if clientCertFile != "" && IsSet(s, KeyClientKey) {
        var clientKeyFile := GetString(s, KeyClientKey);
        if clientKeyFile != "" {
          if (clientCertFile, clientKeyFile) !in p.keyPairs {
            return Fatal(KeyPairInvalid);
          }
          tlsConfig := tlsConfig.(certificates := [Certificate(clientCertFile, clientKeyFile)]);
          useTlsConfig := true;
        } else {
          return Fatal(EmptyClientKey);
        }
      } else {
        return Fatal(CertKeyNotPaired);
      }
    }

    var transport: Option<TlsConfig> := None;
    if useTlsConfig {
      transport := Some(tlsConfig);
    }
    r := Ok(HttpClient(timeout, transport));
  }

  /** With none of the insecure flag, a root CA or a client certificate set,
      the client keeps the default transport. */
  lemma NoTlsSettingsNoOverride(s: Store, p: Platform)
    requires !IsSet(s, KeyAllowInsecureConn) && !IsSet(s, KeyRootCA) && !IsSet(s, KeyClientCert)
    ensures ClientFor(s, p) == Ok(HttpClient(ClientTimeout(s), None))
  {
  }

  /** Setting `allow_insecure_conn`, even to false, activates the TLS
      configuration and copies its value into the skip-verify flag. */
  lemma InsecureFlagActivatesTls(s: Store, p: Platform)
    requires IsSet(s, KeyAllowInsecureConn) && ClientFor(s, p).Ok?
    ensures ClientFor(s, p).value.transport.Some?
    ensures ClientFor(s, p).value.transport.value.insecureSkipVerify == s[KeyAllowInsecureConn].flag
  {
  }

  /** `client_key` without `client_cert` is ignored. */
  lemma ClientKeyAloneIgnored(s: Store, p: Platform, v: Value)
    requires !IsSet(s, KeyClientCert)
    ensures ClientFor(s[KeyClientKey := v], p) == ClientFor(s - {KeyClientKey}, p)
  {
  }

  /** `root_ca` set to the empty path behaves as if it were unset. */
  lemma EmptyRootCAIsNoOp(s: Store, p: Platform)
    requires IsSet(s, KeyRootCA) && GetString(s, KeyRootCA) == ""
    ensures ClientFor(s, p) == ClientFor(s - {KeyRootCA}, p)
  {
  }

  /** A system pool that fails to load is never fatal: it only drops the
      system roots from the trust pool. */
  lemma SystemPoolFailureNotFatal(s: Store, p: Platform)
    ensures ClientFor(s, p.(systemPoolLoads := false)).Fatal? == ClientFor(s, p).Fatal?
    ensures ClientFor(s, p).Ok? && WantsRootCA(s) ==>
              ClientFor(s, p.(systemPoolLoads := false)).value.transport.value.rootCAs
                == Some(CertPool(false, [GetString(s, KeyRootCA)]))
  {
  }

  /** The root CA rules: an unreadable file is fatal, a file that appends no
      certificate is fatal, and a file that appends sets the trust pool. */
  lemma RootCAOutcomes(s: Store, p: Platform)
    requires WantsRootCA(s)
    ensures GetString(s, KeyRootCA) !in p.readableFiles ==> ClientFor(s, p) == Fatal(RootCAUnreadable)
    ensures GetString(s, KeyRootCA) in p.readableFiles && GetString(s, KeyRootCA) !in p.pemFiles ==>
              ClientFor(s, p) == Fatal(RootCAUnparsable)
    ensures ClientFor(s, p).Ok? ==>
              GetString(s, KeyRootCA) in p.readableFiles && GetString(s, KeyRootCA) in p.pemFiles
              && ClientFor(s, p).value.transport.Some?
              && ClientFor(s, p).value.transport.value.rootCAs
                   == Some(CertPool(p.systemPoolLoads, [GetString(s, KeyRootCA)]))
  {
  }

  /** The asymmetric certificate/key check, once the root CA step passed:
      an empty certificate path or a missing key is "both must be provided",
      an empty key path is its own error, and a pair that does not load is
      fatal. */
  lemma ClientCertPairing(s: Store, p: Platform)
    requires IsSet(s, KeyClientCert)
    requires !WantsRootCA(s) || (GetString(s, KeyRootCA) in p.readableFiles && GetString(s, KeyRootCA) in p.pemFiles)
    ensures GetString(s, KeyClientCert) == "" || !IsSet(s, KeyClientKey) ==> ClientFor(s, p) == Fatal(CertKeyNotPaired)
    ensures GetString(s, KeyClientCert) != "" && IsSet(s, KeyClientKey) && GetString(s, KeyClientKey) == "" ==>
              ClientFor(s, p) == Fatal(EmptyClientKey)
    ensures GetString(s, KeyClientCert) != "" && GetString(s, KeyClientKey) != "" && IsSet(s, KeyClientKey)
            && (GetString(s, KeyClientCert), GetString(s, KeyClientKey)) !in p.keyPairs ==>
              ClientFor(s, p) == Fatal(KeyPairInvalid)
  {
  }

  /** `allow_insecure_conn=true` with `root_ca` set to "": a TLS override
      that skips verification and leaves the trust pool alone. */
  lemma InsecureWithEmptyRootCA(p: Platform)
    ensures ClientFor(map[KeyAllowInsecureConn := Value("true", 0, true), KeyRootCA := Value("", 0, false)], p)
            == Ok(HttpClient(10, Some(TlsConfig(true, None, []))))
  {
  }
}
