/** The module-level registry of the middleware: the provider `metrics` and
    the lists `readinessChecks` and `healthChecks`, which the registration
    functions update in place and `reset` replaces. The middleware reads them
    on every request. */
module Registration {
  import opened Wrappers
  import opened Checks
  import opened Exposition
  import opened Middleware

  class Registry {
    var metrics: Option<string>
    var readinessChecks: seq<Check>
    var healthChecks: seq<Check>

    /** The default empty configuration at process start. */
    constructor ()
      ensures Snapshot() == EMPTY
    {
      metrics := None;
      readinessChecks := [];
      healthChecks := [];
    }

    /** The registry as one request sees it. */
    function Snapshot(): (cfg: Config)
      reads this
    {
      Config(readinessChecks, healthChecks, metrics)
    }

    /** `addCheck`: push onto the health list; returns the new length, as
        `Array.prototype.push` does. */
    method AddCheck(check: Check) returns (length: nat)
      modifies this
      ensures healthChecks == old(healthChecks) + [check]
      ensures length == |healthChecks| == |old(healthChecks)| + 1
      ensures readinessChecks == old(readinessChecks) && metrics == old(metrics)
    {
      healthChecks := healthChecks + [check];
      length := |healthChecks|;
    }

    /** `addReadinessCheck`: push onto the readiness list; returns its new length. */
    method AddReadinessCheck(check: Check) returns (length: nat)
      modifies this
      ensures readinessChecks == old(readinessChecks) + [check]
      ensures length == |readinessChecks| == |old(readinessChecks)| + 1
      ensures healthChecks == old(healthChecks) && metrics == old(metrics)
    {
      readinessChecks := readinessChecks + [check];
      length := |readinessChecks|;
    }

    /** `addMetrics`: replace the provider; a falsy argument (None) unsets it. */
    method AddMetrics(provider: Option<string>)
      modifies this
      ensures metrics == provider
      ensures readinessChecks == old(readinessChecks) && healthChecks == old(healthChecks)
    {
      metrics := provider;
    }

    /** `reset`: unset the provider and empty both lists. */
    method Reset()
      modifies this
      ensures Snapshot() == EMPTY
    {
      metrics := None;
      readinessChecks := [];
      healthChecks := [];
    }

    /** One request through the middleware. The closure returned by
        `getMiddleware` reads the module-level bindings when the request
        arrives, so the dispatch sees the registry as it is now, not as it
        was when the middleware was created. What each path answers is
        stated by the lemmas about `Route` (`HealthzStatus`, `CheckzBody`,
        `MetriczBody`, `PassThrough`). */
    method Handle(path: string) returns (response: Response)
      ensures response == Route(Snapshot(), path)
      ensures response.contentType == CONTENT_TYPE
    {
      response := Route(Snapshot(), path);
    }
  }

  /** Whatever was registered before, `reset` (once or twice) brings back the
      empty-registry answers on all three paths. */
  method ResetThenRequest(registry: Registry) returns (healthz: Response, checkz: Response, metricz: Response)
    modifies registry
    ensures registry.Snapshot() == EMPTY
    ensures healthz.action == SendStatus(200)
    ensures checkz.action == SendStatus(404)
    ensures metricz.action == SendStatus(404)
  {
    registry.Reset();
    registry.Reset();
    healthz := registry.Handle(HEALTH_PATH);
    checkz := registry.Handle(CHECK_PATH);
    metricz := registry.Handle(METRICS_PATH);
  }

  /** The last `addMetrics` wins, and `/metricz` sends its string unmodified. */
  method LastProviderWins(first: string, second: string) returns (metricz: Response)
    ensures metricz == Response(CONTENT_TYPE, Send(200, second))
  {
    var registry := new Registry();
    registry.AddMetrics(Some(first));
    registry.AddMetrics(Some(second));
    metricz := registry.Handle(METRICS_PATH);
  }

  /** Registration order is report order: two health checks give two lines,
      the first registered first. */
  method TwoChecksInOrder(a: string, b: string) returns (checkz: Response)
    ensures checkz.action == Send(200, a + " 0\n" + b + " 2\n")
  {
    var registry := new Registry();
    var n := registry.AddCheck(Check(a, Fires(Ok)));
    n := registry.AddCheck(Check(b, Fires(Critical)));
    assert n == 2;
    checkz := registry.Handle(CHECK_PATH);
    var results := [CheckResult(a, 0), CheckResult(b, 2)];
    var checks := [Check(a, Fires(Ok)), Check(b, Fires(Critical))];
    assert registry.healthChecks == checks;
    assert RunCheck(checks[0]) == Some(results[0]) && RunCheck(checks[1]) == Some(results[1]);
    assert RunHealthChecks(checks).value == results;
    assert Lines(results) == SampleLine(results[0]) + (SampleLine(results[1]) + Lines([]));
  }

  /** A readiness check that fires warning makes `/healthz` fail, even beside
      one that passes; the health list is untouched by readiness registration. */
  method WarningFailsReadiness(registry: Registry) returns (healthz: Response, checkz: Response)
    modifies registry
    ensures registry.Snapshot() == Config([Check("cache", Fires(Ok)), Check("db", Fires(Warning))], [], None)
    ensures healthz.action == SendStatus(500)
    ensures checkz.action == SendStatus(404)
  {
    registry.Reset();
    var n := registry.AddReadinessCheck(Check("cache", Fires(Ok)));
    n := registry.AddReadinessCheck(Check("db", Fires(Warning)));
    healthz := registry.Handle(HEALTH_PATH);
    HealthzFailure(registry.Snapshot(), 1);
    checkz := registry.Handle(CHECK_PATH);
  }
}
