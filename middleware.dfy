/** The request dispatch of the middleware returned by `getMiddleware`.

    A request is reduced to its path and the registry to a snapshot of its
    three fields. What the middleware does to the response object is returned
    as a `Response`: the Content-Type header it sets first, and then either a
    call of `next()`, a `sendStatus(code)`, a `send(body)`, or nothing at all
    when the promise it returns rejects. */
module Middleware {
  import opened Wrappers
  import opened Checks
  import opened Exposition

  /** The header value set on every request the middleware sees. */
  const CONTENT_TYPE: string := "text/plain; version=0.0.4"

  const HEALTH_PATH: string := "/healthz"
  const CHECK_PATH: string := "/checkz"
  const METRICS_PATH: string := "/metricz"

  /** The registry as seen by one request. `metrics` is the string the
      provider returns; None stands for an unset (falsy) provider. */
  datatype Config = Config(readinessChecks: seq<Check>, healthChecks: seq<Check>, metrics: Option<string>)

  /** The registry at process start and after `reset`. */
  const EMPTY: Config := Config([], [], None)

  /** What the middleware does after setting the header. `Send` is
      `res.send(body)`, whose status is Express's default 200. `Rejected` is a
      returned promise that rejects before anything is sent. */
  datatype Action =
    | Next
    | SendStatus(status: int)
    | Send(status: int, body: string)
    | Rejected

  datatype Response = Response(contentType: string, action: Action)

  /** The three paths the middleware answers; any other is handed on. */
  predicate Handled(path: string)
  {
    path == HEALTH_PATH || path == CHECK_PATH || path == METRICS_PATH
  }

  /** The middleware: set the header, then dispatch on the exact path. */
  function Route(cfg: Config, path: string): (r: Response)
    ensures r.contentType == CONTENT_TYPE
    ensures r.action.Next? <==> !Handled(path)
  {
    var action :=
      if path == HEALTH_PATH then
        if |cfg.readinessChecks| < 1 then SendStatus(200)
        else if ReadinessOk(cfg.readinessChecks) then SendStatus(200)
        else SendStatus(500)
      else if path == CHECK_PATH then
        if |cfg.healthChecks| < 1 then SendStatus(404)
        else
          match RunHealthChecks(cfg.healthChecks)
          case Some(results) => Send(200, Format(results))
          case None => Rejected
      else if path == METRICS_PATH then
        match cfg.metrics
        case None => SendStatus(404)
        case Some(body) => Send(200, body)
      else
        Next;
    Response(CONTENT_TYPE, action)
  }

  /** `/healthz` answers 200 exactly when every readiness check fires its
      ok resolver (so also when there are none), and 500 otherwise. */
  lemma HealthzStatus(cfg: Config)
    ensures Route(cfg, HEALTH_PATH).action ==
      SendStatus(if forall i :: 0 <= i < |cfg.readinessChecks| ==> Passes(cfg.readinessChecks[i]) then 200 else 500)
  {
  }

  /** With at least one readiness check, a single failing one gives 500. */
  lemma HealthzFailure(cfg: Config, i: nat)
    requires i < |cfg.readinessChecks| && !Passes(cfg.readinessChecks[i])
    ensures Route(cfg, HEALTH_PATH).action == SendStatus(500)
  {
  }

  /** `/checkz` answers 404 when no health check is registered; otherwise,
      when every check fires a resolver, it sends status 200 with one sample
      line per check, in registration order. */
  lemma CheckzBody(cfg: Config)
    ensures cfg.healthChecks == [] ==> Route(cfg, CHECK_PATH).action == SendStatus(404)
    ensures cfg.healthChecks != [] && RunHealthChecks(cfg.healthChecks).Some? ==>
      Route(cfg, CHECK_PATH).action == Send(200, Lines(RunHealthChecks(cfg.healthChecks).value))
  {
  }

  /** `/checkz` sends nothing when any health check throws. */
  lemma CheckzRejected(cfg: Config, i: nat)
    requires i < |cfg.healthChecks| && cfg.healthChecks[i].outcome == Throws
    ensures Route(cfg, CHECK_PATH).action == Rejected
  {
  }

  /** Registering one more health check that fires adds exactly its sample
      line at the end of a non-empty `/checkz` report. */
  lemma CheckzAfterAddCheck(cfg: Config, c: Check, s: Severity)
    requires cfg.healthChecks != [] && RunHealthChecks(cfg.healthChecks).Some?
    requires c.outcome == Fires(s)
    ensures Route(cfg, CHECK_PATH).action.Send?
    ensures Route(cfg.(healthChecks := cfg.healthChecks + [c]), CHECK_PATH).action ==
      Send(200, Route(cfg, CHECK_PATH).action.body + c.name + " " + [Digit(Value(s))] + "\n")
  {
    var before := RunHealthChecks(cfg.healthChecks).value;
    var added := RunCheck(c).value;
    var grown := cfg.(healthChecks := cfg.healthChecks + [c]);
    RunHealthChecksAppend(cfg.healthChecks, c);
    assert RunHealthChecks(grown.healthChecks) == Some(before + [added]);
    assert Route(cfg, CHECK_PATH).action == Send(200, Format(before));
    assert Route(grown, CHECK_PATH).action == Send(200, Format(before + [added]));
    FormatAppend(before, added);
    assert added == CheckResult(c.name, Value(s));
    calc {
      Format(before + [added]);
      Format(before) + SampleLine(added);
      Format(before) + (c.name + " " + [Digit(Value(s))] + "\n");
      Format(before) + c.name + " " + [Digit(Value(s))] + "\n";
    }
  }

  /** `/metricz` answers 404 without a provider and otherwise sends the
      provider's string unmodified with status 200. */
  lemma MetriczBody(cfg: Config)
    ensures Route(cfg, METRICS_PATH).action ==
      if cfg.metrics.Some? then Send(200, cfg.metrics.value) else SendStatus(404)
  {
  }

  /** A path other than the three exact strings only gets the header and is
      passed on with `next()`. */
  lemma PassThrough(cfg: Config, path: string)
    requires !Handled(path)
    ensures Route(cfg, path) == Response(CONTENT_TYPE, Next)
  {
  }

  /** The empty registry: ready, no check report and no metrics. */
  lemma EmptyRegistry()
    ensures Route(EMPTY, HEALTH_PATH).action == SendStatus(200)
    ensures Route(EMPTY, CHECK_PATH).action == SendStatus(404)
    ensures Route(EMPTY, METRICS_PATH).action == SendStatus(404)
  {
  }

  /** A single health check named "db" that fires critical is reported as `db 2`. */
  lemma CriticalDbReport()
    ensures Route(Config([], [Check("db", Fires(Critical))], None), CHECK_PATH).action == Send(200, "db 2\n")
  {
  }
}
