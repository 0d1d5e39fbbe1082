/** Outcomes of the start-up resolvers and of the supervision loop. Every
    place where the server logs a fatal message and exits becomes a `Fatal`
    value carrying the reason. */
module Outcomes {

  datatype Option<+T> = None | Some(value: T)

  /** One constructor per fatal log line of the server's entry point. */
  datatype FatalReason =
    | MetricsListenFailed      // the metrics listener could not be bound
    | RootCAUnreadable         // the root CA file could not be read
    | RootCAUnparsable         // no certificate of the root CA file could be appended
    | KeyPairInvalid           // the client certificate/key pair could not be loaded
    | EmptyClientKey           // client_key is set to the empty path
    | CertKeyNotPaired         // client_cert is empty, or client_key is not set
    | ServerStartFailed        // the adapter server could not be constructed
    | GracefulShutdownFailed   // closing the server after a signal failed
    | ServerExitedWithError    // the serving loop reported an error

  datatype Outcome<+T> = Ok(value: T) | Fatal(reason: FatalReason)
}
