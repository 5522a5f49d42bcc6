# bw-monitoring middleware, modelled in Dafny

The repository is an Express middleware that adds three monitoring endpoints
to a web service. `/healthz` is a readiness probe. `/checkz` is a report of
every registered health check. `/metricz` passes through the output of one
metrics provider. The host application registers checks and a provider in a
process-wide registry with `addCheck`, `addReadinessCheck` and `addMetrics`,
and clears it with `reset`.

This project models that core in four modules:

- `Checks` (checks.dfy) models the check runners `doCheck` and
  `doReadinessCheck` and the two aggregation modes. A check is the single
  outcome it produces. It either fires one of its four resolvers (ok,
  warning, critical, unknown) or throws before firing any. Health mode maps
  the checks in order and fails as a whole if one throws, as `Promise.all`
  does. Readiness mode is a logical AND that is true on the empty list.
- `Exposition` (exposition.dfy) models `toPrometheusFormat` and the `reduce`
  that folds it over the results from the empty string. Each result becomes
  one `name value\n` line, the sample-line syntax of the Prometheus
  text-based exposition format, version 0.0.4. The module also defines an
  independent reference (the concatenation of the lines) and a parser that
  reads a report back.
- `Middleware` (middleware.dfy) models the function returned by
  `getMiddleware`. It takes a snapshot of the registry and the request path.
  It returns the Content-Type header it sets and what it then does: `next()`,
  `sendStatus(code)`, `send(body)`, or nothing when its promise rejects.
- `Registration` (registry.dfy) is the module-level state, written as the
  class `Registry`. Its `seq` fields are updated by the registration methods
  and cleared by `Reset`. It also has client methods for the scenarios that
  combine registration with requests.

## Model

| member | source | states |
|---|---|---|
| `Checks.Value` | src/index.js:13-17 | the value reported for a severity is the position of its resolver in `(ok, warning, critical, unknown)`, so it is always 0..3 |
| `Checks.ValueInjective` | src/index.js:13-17 | two severities report the same value only if they are the same severity |
| `Checks.RunCheck` | src/index.js:10-19 | the health runner resolves exactly when the check fires a resolver; the result copies the name unchanged, and its value is the index of the resolver that fired; a throwing check rejects |
| `Checks.Passes` | src/index.js:21-23 | a readiness check passes iff its health result resolves with value 0, i.e. it fires the first (ok) resolver |
| `Checks.FailsReadiness` | src/index.js:21-23 | a readiness check fails iff it fires warning, critical or unknown, or throws |
| `Checks.RunHealthChecks` | src/index.js:56-63 | the collected results exist iff no check throws; then there is one per check, and the i-th is the i-th check's result (registration order) |
| `Checks.RunHealthChecksAppend` | src/index.js:56-63 | adding a firing check at the end adds its result at the end of the collection and changes nothing else |
| `Checks.ReadinessOk` | src/index.js:35-47 | readiness holds iff every readiness check passes; it holds vacuously for no checks |
| `Checks.OneFailureFails` | src/index.js:45-47 | a single failing readiness check makes readiness fail |
| `Checks.ReadinessMatchesHealth` | src/index.js:10-23 | reusing a health check for readiness is consistent: all pass iff all resolve in health mode with value 0 |
| `Exposition.Digit` | src/index.js:25 | a value is rendered as the single decimal digit '0'..'3' that denotes it |
| `Exposition.SampleLine` | src/index.js:25 | one line is the name, one space, the value's digit and a newline |
| `Exposition.Append` | src/index.js:25 | the reducer `toPrometheusFormat` keeps the accumulator unchanged as a prefix and appends, position by position, the name, one space, the value's digit and a newline (`${str}${name} ${value}\n`) |
| `Exposition.FoldLeft` | src/index.js:66 | `reduce` from the left keeps its initial accumulator as a prefix of the result; that it appends the lines in order is `FoldLeftIsConcat` |
| `Exposition.Format` | src/index.js:66 | `check.reduce(toPrometheusFormat, '')` is exactly the concatenation of one sample line per result, in order, with nothing before or after; its round trip through the parser is `ParseFormat` |
| `Exposition.FoldLeftIsConcat` | src/index.js:63-66 | folding the reducer from any accumulator appends the concatenation of the lines, in order, to that accumulator |
| `Exposition.LinesAppend` | src/index.js:63-66 | the lines of two result lists concatenated are the lines of their concatenation |
| `Exposition.FormatAppend` | src/index.js:63-66 | one more result appends exactly its line to the report |
| `Exposition.LinesLength` | src/index.js:25 | the report is three characters per result longer than the names |
| `Exposition.ParseLines` | src/index.js:25 | reading the concatenated lines back yields the results, when no name contains a newline |
| `Exposition.ParseFormat` | src/index.js:63-66 | the report determines the results it was made from (round trip through the parser), when no name contains a newline |
| `Middleware.Route` | src/index.js:31-79 | every request gets the `text/plain; version=0.0.4` Content-Type; `next()` is called iff the path is none of `/healthz`, `/checkz`, `/metricz` |
| `Middleware.HealthzStatus` | src/index.js:34-47 | `/healthz` sends status 200 iff every readiness check passes (also when none is registered), and 500 otherwise |
| `Middleware.HealthzFailure` | src/index.js:39-47 | any failing readiness check makes `/healthz` send 500 |
| `Middleware.CheckzBody` | src/index.js:51-67 | `/checkz` sends 404 when no health check is registered; otherwise, when all resolve, it sends 200 with one `name value\n` line per check in registration order |
| `Middleware.CheckzRejected` | src/index.js:56-67 | a throwing health check leaves `/checkz` without a reply (its promise rejects) |
| `Middleware.CheckzAfterAddCheck` | src/index.js:51-67 | registering one more firing health check appends exactly `name value\n` to a non-empty `/checkz` body |
| `Middleware.MetriczBody` | src/index.js:71-77 | `/metricz` sends 404 without a provider, and otherwise 200 with the provider's string unmodified |
| `Middleware.PassThrough` | src/index.js:79 | any other path gets only the header and is handed on with `next()` |
| `Middleware.EmptyRegistry` | src/index.js:35-73 | with nothing registered, `/healthz` gives 200 and `/checkz` and `/metricz` give 404 |
| `Middleware.CriticalDbReport` | src/index.js:51-67 | one health check `db` firing critical gives the report `db 2\n` with status 200 |
| `Registration.Registry.constructor` | src/index.js:5-8 | the registry starts with no provider and two empty lists |
| `Registration.Registry.AddCheck` | src/index.js:27 | the check is appended at the end of the health list; the new length is returned; the readiness list and provider are unchanged |
| `Registration.Registry.AddReadinessCheck` | src/index.js:28 | the check is appended at the end of the readiness list; the new length is returned; the health list and provider are unchanged |
| `Registration.Registry.AddMetrics` | src/index.js:29 | the provider is replaced by the argument; both lists are unchanged |
| `Registration.Registry.Reset` | src/index.js:82-86 | afterwards there is no provider and both lists are empty, whatever the state was before |
| `Registration.Registry.Handle` | src/index.js:31-79 | a request is answered by the dispatch applied to the current registry, and carries the Content-Type header |
| `Registration.ResetThenRequest` | src/index.js:82-86 | reset twice still gives the empty registry, and then `/healthz` is 200 and `/checkz` and `/metricz` are 404 |
| `Registration.LastProviderWins` | src/index.js:29 | after two `addMetrics` calls, `/metricz` sends the second provider's string |
| `Registration.TwoChecksInOrder` | src/index.js:27 | two health checks registered in order give their two lines in that order |
| `Registration.WarningFailsReadiness` | src/index.js:28 | after reset and two readiness registrations the registry holds exactly those two checks, no health check and no provider; the check firing warning beside the one firing ok makes `/healthz` send 500; `/checkz` stays 404 |

## Left out

- The Express `req`, `res` and `next` objects are not modelled. The response is a returned value instead.
- Express's own handling inside `sendStatus` and `send` is not modelled. This covers the reason-phrase body that `sendStatus` writes and the Content-Type that `sendStatus` and `send` may rewrite. The model records the header that the middleware sets and the call it makes.
- Promise construction, the concurrent fan-out and the `Promise.all` barrier are not modelled. Results are computed in sequence. This is faithful to the output because `Promise.all` keeps input order.
- A check that calls no resolver is left out. In the source it hangs the request for ever. A check that calls several resolvers is also left out; only its first call counts in the source. Each check is modelled as exactly one outcome.
- A check that throws asynchronously, after its function has returned, is not modelled. Only a synchronous throw rejects the runner's promise; it is the `Throws` outcome.
- A registered check is stored with one fixed outcome. In `Registration.Registry`, every later request sees that same outcome. In the source, each request calls the check function again, so a check can pass on one request and fail on the next. `Middleware.Route` models the outcomes of one request.
- The bodies of the user-supplied checks and of the metrics provider are foreign code. The provider is modelled by the string it returns, which is taken to be the same on every request. A provider that throws is not modelled.
- `addMetrics` with a truthy value that is not a function is not modelled. In the source, `/metricz` would then throw.
- A registration or reset during a request in flight is not modelled. Each request sees one snapshot of the registry.
- Exposition.ParseFormat: it holds only when no check name contains a newline. The formatter neither escapes nor validates names.
