/** The optional metrics sideband: whether a metrics listener is started,
    on which port, and the reporter handed to the authorizer. */
module Metrics {
  import opened Settings
  import opened Outcomes

  const DefaultMetricsPort := 8080

  /** The reporter handed to the authorizer (its two callbacks are not
      modelled), together with the port its listener serves on. */
  datatype MetricsReporter = MetricsReporter(reportMetrics: bool, port: int)

  /** Reporting is on only when `report_metrics` is set and true. */
  predicate MetricsEnabled(s: Store) {
    IsSet(s, KeyReportMetrics) && GetBool(s, KeyReportMetrics)
  }

  /** `listens` is the outcome of binding the listener on the chosen port.
      When reporting is off no listener is bound and no reporter exists. */
  function ParseMetricsConfig(s: Store, listens: bool): (r: Outcome<Option<MetricsReporter>>)
    ensures r == Ok(None) <==> !MetricsEnabled(s)
    ensures r.Fatal? <==> MetricsEnabled(s) && !listens
    ensures r.Fatal? ==> r.reason == MetricsListenFailed
    ensures r.Ok? && r.value.Some? ==>
              r.value.value.reportMetrics
              && (IsSet(s, KeyMetricsPort) ==> r.value.value.port == s[KeyMetricsPort].number)
              && (!IsSet(s, KeyMetricsPort) ==> r.value.value.port == 8080)
  {
    if !IsSet(s, KeyReportMetrics) || !GetBool(s, KeyReportMetrics) then
      Ok(None)
    else
      var port := IntOr(s, KeyMetricsPort, DefaultMetricsPort);
      if !listens then Fatal(MetricsListenFailed)
      else Ok(Some(MetricsReporter(true, port)))
  }

  /** A failing listener matters only when reporting is on. */
  lemma ListenerIrrelevantWhenDisabled(s: Store)
    requires !MetricsEnabled(s)
    ensures ParseMetricsConfig(s, false) == ParseMetricsConfig(s, true) == Ok(None)
  {
  }
}
