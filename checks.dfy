/** The check runner and the two aggregation modes of the monitoring middleware.

    A registered check is a callback-style function that is handed four
    resolvers (ok, warning, critical, unknown) and calls one of them. Here a
    check is the single outcome it produces: the resolver it fires, or an
    exception it throws before firing any. A check that fires none (and so
    hangs the request) is outside this model. */
module Checks {
  import opened Wrappers

  /** The four outcomes a check can report, ordered by the position of their
      resolver in the call `check(ok, warning, critical, unknown)`. */
  datatype Severity = Ok | Warning | Critical | Unknown

  /** What one invocation of a check's function does. */
  datatype Outcome = Fires(severity: Severity) | Throws

  /** A registered check. The name is not required to be unique. */
  datatype Check = Check(name: string, outcome: Outcome)

  /** The numeric value reported for a check: 0 = ok … 3 = unknown. */
  type SeverityValue = v: int | 0 <= v < 4

  /** The result object `{ name, value }` built by the health runner. */
  datatype CheckResult = CheckResult(name: string, value: SeverityValue)

  /** The resolvers in the order they are passed to a check's function. */
  const RESOLVERS: seq<Severity> := [Ok, Warning, Critical, Unknown]

  /** The value a resolver reports is its position in the argument list. */
  function Value(s: Severity): (v: SeverityValue)
    ensures RESOLVERS[v] == s
  {
    match s
    case Ok => 0
    case Warning => 1
    case Critical => 2
    case Unknown => 3
  }

  /** The value identifies the resolver: different severities report different values. */
  lemma ValueInjective(s: Severity, t: Severity)
    ensures Value(s) == Value(t) <==> s == t
  {
  }

  /** Health-mode runner: the promise resolves with `{ name, value }` for the
      resolver that fired, and rejects (None) when the check throws. */
  function RunCheck(c: Check): (r: Option<CheckResult>)
    ensures r.Some? <==> c.outcome.Fires?
    ensures r.Some? ==> r.value.name == c.name && RESOLVERS[r.value.value] == c.outcome.severity
  {
    match c.outcome
    case Fires(s) => Some(CheckResult(c.name, Value(s)))
    case Throws => None
  }

  /** Readiness-mode runner: the same check function is called with
      `(resolve, reject, reject, reject)`, so only the first resolver is a pass. */
  function Passes(c: Check): (ok: bool)
    ensures ok <==> RunCheck(c).Some? && RunCheck(c).value.value == 0
  {
    match c.outcome
    case Fires(s) => s == RESOLVERS[0]
    case Throws => false
  }

  /** A check fails readiness exactly when it fires warning, critical or unknown, or throws. */
  lemma FailsReadiness(c: Check)
    ensures !Passes(c) <==> c.outcome in {Fires(Warning), Fires(Critical), Fires(Unknown), Throws}
  {
  }

  /** Health mode: every check is run and `Promise.all` collects the results
      in registration order; one rejection rejects the whole collection. */
  function RunHealthChecks(cs: seq<Check>): (r: Option<seq<CheckResult>>)
    ensures r.Some? <==> forall i :: 0 <= i < |cs| ==> cs[i].outcome.Fires?
    ensures r.Some? ==>
              |r.value| == |cs| && forall i :: 0 <= i < |cs| ==> RunCheck(cs[i]) == Some(r.value[i])
  {
    if cs == [] then Some([])
    else
      match (RunCheck(cs[0]), RunHealthChecks(cs[1..]))
      case (Some(first), Some(rest)) => Some([first] + rest)
      case _ => None
  }

  /** Registering one more check that fires adds its result at the end of the collection. */
  lemma {:induction false} RunHealthChecksAppend(cs: seq<Check>, c: Check)
    requires RunHealthChecks(cs).Some? && c.outcome.Fires?
    ensures RunHealthChecks(cs + [c]) == Some(RunHealthChecks(cs).value + [RunCheck(c).value])
  {
    var r := RunHealthChecks(cs + [c]);
    var expected := RunHealthChecks(cs).value + [RunCheck(c).value];
    assert forall i :: 0 <= i < |cs + [c]| ==> (cs + [c])[i].outcome.Fires? by {
      forall i | 0 <= i < |cs + [c]| ensures (cs + [c])[i].outcome.Fires? {
        if i < |cs| { assert (cs + [c])[i] == cs[i]; }
      }
    }
    assert r.Some? && |r.value| == |expected|;
    forall i | 0 <= i < |expected| ensures r.value[i] == expected[i] {
      if i < |cs| {
        assert (cs + [c])[i] == cs[i];
        assert RunCheck(cs[i]) == Some(RunHealthChecks(cs).value[i]);
      } else {
        assert (cs + [c])[i] == c;
      }
    }
    assert r.value == expected;
  }

  /** Readiness mode: a logical AND over all readiness checks, true on none. */
  function ReadinessOk(cs: seq<Check>): (ok: bool)
    ensures ok <==> forall i :: 0 <= i < |cs| ==> Passes(cs[i])
  {
    if cs == [] then true else Passes(cs[0]) && ReadinessOk(cs[1..])
  }

  /** One failing readiness check is enough to fail the whole probe. */
  lemma OneFailureFails(cs: seq<Check>, i: nat)
    requires i < |cs| && !Passes(cs[i])
    ensures !ReadinessOk(cs)
  {
  }

  /** Readiness agrees with health mode: all checks pass exactly when every
      check resolves and every reported value is 0. */
  lemma ReadinessMatchesHealth(cs: seq<Check>)
    ensures ReadinessOk(cs) <==>
      RunHealthChecks(cs).Some? && forall i :: 0 <= i < |cs| ==> RunHealthChecks(cs).value[i].value == 0
  {
  }
}
