/**
 * `createHealthChecker`: named probes run one after another by `check()`,
 * each result recorded in registration order and folded into one service
 * status; `readiness()` and `liveness()` derived from it; and the probe
 * factories of `commonChecks` that turn an I/O outcome into a result.
 *
 * Probes are I/O. A pass of `check()` receives, as the function `run`, the
 * outcome each probe has in that pass; clock readings and ISO timestamps are
 * parameters.
 */
module Health {
  import opened Wrappers
  import opened Text
  import opened Records

  datatype Status = Healthy | Degraded | Unhealthy

  /** healthy < degraded < unhealthy. */
  function Rank(s: Status): nat {
    match s
    case Healthy => 0
    case Degraded => 1
    case Unhealthy => 2
  }

  /** `HealthCheckResult`. */
  datatype CheckResult = CheckResult(
    name: string, status: Status, message: Option<string>, latency: Option<int>, timestamp: string)

  /** `ServiceHealth`. */
  datatype ServiceHealth = ServiceHealth(
    service: string, version: string, status: Status, uptime: int, timestamp: string,
    checks: seq<CheckResult>)

  /** A thrown value: an `Error` (with its message) or anything else. */
  datatype Thrown = ErrorObject(message: string) | NonError

  /**
   * How one probe ends in one pass: it resolves with a result after `elapsed`
   * milliseconds, it throws, or the 5000 ms timer wins the race.
   */
  datatype ProbeOutcome = Ok(result: CheckResult, elapsed: int) | Threw(error: Thrown) | TimedOut

  /** The message recorded for a probe that did not resolve. */
  function FailureMessage(o: ProbeOutcome): string
    requires !o.Ok?
  {
    match o
    case Threw(ErrorObject(m)) => m
    case Threw(NonError) => "Check failed"
    case TimedOut => "Health check timeout"
  }

  /** The entry `check()` pushes for the probe registered as `name`. */
  function Record(name: string, o: ProbeOutcome, stamp: string): CheckResult {
    match o
    case Ok(r, elapsed) => r.(latency := Some(elapsed))
    case _ => CheckResult(name, Unhealthy, Some(FailureMessage(o)), None, stamp)
  }

  /** The results of one pass over the registered checks, in registration order. */
  function Results<P>(checks: Fields<P>, run: P -> ProbeOutcome, stamp: string): (r: seq<CheckResult>)
    ensures |r| == |checks|
    ensures forall i | 0 <= i < |checks| :: r[i] == Record(checks[i].0, run(checks[i].1), stamp)
  {
    seq(|checks|, i requires 0 <= i < |checks| => Record(checks[i].0, run(checks[i].1), stamp))
  }

  /** One more probe visited by the loop of `check()`. */
  lemma ResultsSnoc<P>(checks: Fields<P>, run: P -> ProbeOutcome, stamp: string, i: nat)
    requires i < |checks|
    ensures Results(checks[..i + 1], run, stamp)
         == Results(checks[..i], run, stamp) + [Record(checks[i].0, run(checks[i].1), stamp)]
  {
    var a, b := checks[..i + 1], checks[..i];
    assert a == b + [checks[i]];
    var l := Results(a, run, stamp);
    var r := Results(b, run, stamp) + [Record(checks[i].0, run(checks[i].1), stamp)];
    assert |l| == |r|;
    forall k | 0 <= k < |l| ensures l[k] == r[k] {
      if k < i {
        assert a[k] == b[k];
      }
    }
  }

  /** The status of one more result folds into the worst status so far. */
  lemma WorstSnoc(rs: seq<CheckResult>, r: CheckResult)
    ensures Worst(Statuses(rs + [r])) == Max(Worst(Statuses(rs)), r.status)
  {
    assert Statuses(rs + [r])[..|rs|] == Statuses(rs);
  }

  function Statuses(rs: seq<CheckResult>): (r: seq<Status>)
    ensures |r| == |rs| && forall i | 0 <= i < |rs| :: r[i] == rs[i].status
  {
    seq(|rs|, i requires 0 <= i < |rs| => rs[i].status)
  }

  /** The more severe of two statuses. */
  function Max(a: Status, b: Status): Status {
    if Rank(a) >= Rank(b) then a else b
  }

  /** The most severe status of a list; `healthy` for none. */
  function Worst(ss: seq<Status>): Status {
    if ss == [] then Healthy else Max(Worst(ss[..|ss| - 1]), ss[|ss| - 1])
  }

  /** `Math.floor(ms / 1000)` (Dafny's division by a positive divisor rounds down). */
  function Seconds(ms: int): int {
    ms / 1000
  }

  /** `{ status: 'ok', timestamp }`. */
  datatype LivenessReport = LivenessReport(status: string, timestamp: string)

  /** `{ ready, checks }`. */
  datatype ReadinessReport = ReadinessReport(ready: bool, checks: seq<CheckResult>)

  /** The checker returned by `createHealthChecker(service, version)`. */
  class HealthChecker<P> {
    const service: string
    const version: string
    const startTime: int
    /** The `checks` map, in registration order. */
    var checks: Fields<P>

    ghost predicate Valid()
      reads this
    {
      UniqueKeys(checks)
    }

    constructor (service: string, version: string, startTime: int)
      ensures this.service == service && this.version == version && this.startTime == startTime
      ensures checks == [] && Valid()
    {
      this.service := service;
      this.version := version;
      this.startTime := startTime;
      checks := [];
    }

    /** `addCheck(name, check)`: a new name is added last, a known one gets the new probe in place. */
    method AddCheck(name: string, probe: P)
      requires Valid()
      modifies this
      ensures Valid()
      ensures checks == Assign(old(checks), name, probe)
      ensures Keys(checks) == if name in Keys(old(checks)) then Keys(old(checks)) else Keys(old(checks)) + [name]
      ensures Get(checks, name) == Some(probe)
      ensures forall other | other != name :: Get(checks, other) == Get(old(checks), other)
    {
      AssignKeys(checks, name, probe);
      AssignUnique(checks, name, probe);
      forall other {
        AssignGet(checks, name, probe, other);
      }
      checks := Assign(checks, name, probe);
    }

    /** What `check()` returns when the probes end as `run` says. */
    function Report(now: int, stamp: string, run: P -> ProbeOutcome): ServiceHealth
      reads this
    {
      var rs := Results(checks, run, stamp);
      ServiceHealth(service, version, Worst(Statuses(rs)), Seconds(now - startTime), stamp, rs)
    }

    /** `check()`: run every probe in turn and fold the statuses. */
    method Check(now: int, stamp: string, run: P -> ProbeOutcome) returns (health: ServiceHealth)
      ensures health == Report(now, stamp, run)
    {
      var results: seq<CheckResult> := [];
      var overallStatus := Healthy;
      for i := 0 to |checks|
        invariant results == Results(checks[..i], run, stamp)
        invariant overallStatus == Worst(Statuses(results))
      {
        var name := checks[i].0;
        ghost var before := results;
        ghost var want := Record(name, run(checks[i].1), stamp);
        match run(checks[i].1) {
          case Ok(r, elapsed) =>
            var result := r.(latency := Some(elapsed));
            results := results + [result];
            if result.status == Unhealthy {
              overallStatus := Unhealthy;
            } else if result.status == Degraded && overallStatus != Unhealthy {
              overallStatus := Degraded;
            }
          case Threw(e) =>
            var message := if e.ErrorObject? then e.message else "Check failed";
            results := results + [CheckResult(name, Unhealthy, Some(message), None, stamp)];
            overallStatus := Unhealthy;
          case TimedOut =>
            results := results + [CheckResult(name, Unhealthy, Some("Health check timeout"), None, stamp)];
            overallStatus := Unhealthy;
        }
        assert results == before + [want];
        WorstSnoc(before, want);
        ResultsSnoc(checks, run, stamp, i);
      }
      assert checks[..|checks|] == checks;
      health := ServiceHealth(service, version, overallStatus, Seconds(now - startTime), stamp, results);
    }

    /** `liveness()`: always 'ok', no probe runs. */
    function Liveness(stamp: string): (r: LivenessReport)
      ensures r.status == "ok"
    {
      LivenessReport("ok", stamp)
    }

    /** `readiness()`: a full `check()`, ready unless the service is unhealthy. */
    method Readiness(now: int, stamp: string, run: P -> ProbeOutcome) returns (r: ReadinessReport)
      ensures r.checks == Report(now, stamp, run).checks
      ensures r.ready <==> Report(now, stamp, run).status != Unhealthy
    {
      var health := Check(now, stamp, run);
      r := ReadinessReport(health.status != Unhealthy, health.checks);
    }
  }

  // ------------------------------------------------- the status fold

  /** The overall status is `unhealthy` exactly when some result is. */
  lemma {:induction false} WorstUnhealthy(ss: seq<Status>)
    ensures Worst(ss) == Unhealthy <==> Unhealthy in ss
    decreases |ss|
  {
    if ss != [] {
      var init := ss[..|ss| - 1];
      WorstUnhealthy(init);
      assert ss == init + [ss[|ss| - 1]];
    }
  }

  /** The overall status is `degraded` exactly when no result is unhealthy and some result is degraded. */
  lemma {:induction false} WorstDegraded(ss: seq<Status>)
    ensures Worst(ss) == Degraded <==> Unhealthy !in ss && Degraded in ss
    decreases |ss|
  {
    if ss != [] {
      var init := ss[..|ss| - 1];
      WorstDegraded(init);
      WorstUnhealthy(init);
      assert ss == init + [ss[|ss| - 1]];
    }
  }

  /** The overall status is `healthy` exactly when every result is (so also with no checks). */
  lemma WorstHealthy(ss: seq<Status>)
    ensures Worst(ss) == Healthy <==> forall i | 0 <= i < |ss| :: ss[i] == Healthy
  {
    WorstUnhealthy(ss);
    WorstDegraded(ss);
    if Worst(ss) != Healthy {
      if Unhealthy in ss {
        var i :| 0 <= i < |ss| && ss[i] == Unhealthy;
      } else {
        var i :| 0 <= i < |ss| && ss[i] == Degraded;
      }
    } else {
      forall i | 0 <= i < |ss| ensures ss[i] == Healthy {
        assert ss[i] in ss;
      }
    }
  }

  /** A probe that throws or times out makes the whole service unhealthy, and not ready. */
  lemma FailedProbeIsUnhealthy<P>(c: HealthChecker<P>, now: int, stamp: string, run: P -> ProbeOutcome, i: nat)
    requires i < |c.checks| && !run(c.checks[i].1).Ok?
    ensures c.Report(now, stamp, run).checks[i] ==
      CheckResult(c.checks[i].0, Unhealthy, Some(FailureMessage(run(c.checks[i].1))), None, stamp)
    ensures c.Report(now, stamp, run).status == Unhealthy
  {
    var ss := Statuses(Results(c.checks, run, stamp));
    assert ss[i] == Unhealthy;
    WorstUnhealthy(ss);
  }

  /** With no checks registered the service is healthy and there are no results. */
  lemma NoChecksIsHealthy<P>(c: HealthChecker<P>, now: int, stamp: string, run: P -> ProbeOutcome)
    requires c.checks == []
    ensures c.Report(now, stamp, run).status == Healthy && c.Report(now, stamp, run).checks == []
  {
  }

  /** `healthy, degraded` gives degraded; `healthy, unhealthy` gives unhealthy. */
  lemma MixedPasses()
    ensures Worst([Healthy, Degraded]) == Degraded
    ensures Worst([Healthy, Unhealthy]) == Unhealthy
    ensures Worst([Degraded, Healthy]) == Degraded
  {
    assert [Healthy, Degraded][..1] == [Healthy];
    assert [Healthy, Unhealthy][..1] == [Healthy];
    assert [Degraded, Healthy][..1] == [Degraded];
  }

  /** `uptime` is the number of whole seconds since the checker was created. */
  lemma UptimeSeconds(elapsed: int)
    requires elapsed >= 0
    ensures 1000 * Seconds(elapsed) <= elapsed < 1000 * (Seconds(elapsed) + 1)
  {
  }

  // ------------------------------------------------- the probe factories

  /** What an awaited I/O call does: resolve with a value or throw. */
  datatype Io<T> = Done(value: T) | Raised(error: Thrown)

  /** The message of a caught value, or `fallback` when it is not an `Error`. */
  function CaughtMessage(e: Thrown, fallback: string): string {
    if e.ErrorObject? then e.message else fallback
  }

  /** `commonChecks.database(name, pingFn)`, once `pingFn()` has settled as `ping`. */
  function DatabaseProbe(name: string, ping: Io<()>, stamp: string): (r: CheckResult)
    ensures r.name == name && r.latency.None? && r.timestamp == stamp
    ensures r.status == Healthy <==> ping.Done?
    ensures r.status != Degraded
    ensures ping.Raised? ==> r.message == Some(CaughtMessage(ping.error, "Database connection failed"))
  {
    match ping
    case Done(_) => CheckResult(name, Healthy, Some("Database connection OK"), None, stamp)
    case Raised(e) => CheckResult(name, Unhealthy, Some(CaughtMessage(e, "Database connection failed")), None, stamp)
  }

  /** `commonChecks.redis(name, pingFn)`, once `pingFn()` has settled as `reply`. */
  function RedisProbe(name: string, reply: Io<string>, stamp: string): (r: CheckResult)
    ensures r.name == name && r.latency.None? && r.timestamp == stamp
    ensures r.status == Healthy <==> reply == Done("PONG")
    ensures r.status == Degraded <==> reply.Done? && reply.value != "PONG"
    ensures r.status == Unhealthy <==> reply.Raised?
  {
    match reply
    case Done(answer) =>
      if answer == "PONG" then CheckResult(name, Healthy, Some("Redis connection OK"), None, stamp)
      else CheckResult(name, Degraded, Some("Unexpected response: " + answer), None, stamp)
    case Raised(e) => CheckResult(name, Unhealthy, Some(CaughtMessage(e, "Redis connection failed")), None, stamp)
  }

  /** `commonChecks.httpService(name, url, expectedStatus = 200)`, once `fetch` has settled as `response`. */
  function HttpProbe(name: string, response: Io<int>, stamp: string, expectedStatus: int := 200): (r: CheckResult)
    ensures r.name == name && r.latency.None? && r.timestamp == stamp
    ensures r.status == Healthy <==> response == Done(expectedStatus)
    ensures r.status == Degraded <==> response.Done? && response.value != expectedStatus
    ensures r.status == Unhealthy <==> response.Raised?
  {
    match response
    case Done(code) =>
      if code == expectedStatus then CheckResult(name, Healthy, Some("Service responded with " + IntText(code)), None, stamp)
      else CheckResult(name, Degraded, Some("Unexpected status: " + IntText(code)), None, stamp)
    case Raised(e) => CheckResult(name, Unhealthy, Some(CaughtMessage(e, "Service unreachable")), None, stamp)
  }

  /**
   * The factory probes catch their own failures, so as probes they only ever
   * resolve: the service can be unhealthy through them only by their own
   * verdict, never by a recorded exception.
   */
  lemma FactoryProbesResolve(name: string, reply: Io<string>, stamp: string, elapsed: int, registered: string)
    ensures Record(registered, Ok(RedisProbe(name, reply, stamp), elapsed), stamp).status == Unhealthy
        <==> reply.Raised?
    ensures Record(registered, Ok(RedisProbe(name, reply, stamp), elapsed), stamp).name == name
  {
  }
}
