/** The deployment document (backend/models/Deployment.js): three per-service
    statuses, the overall status derived from them, a log capped at the newest
    100 entries, and the health-check list replaced on every probe cycle. */
module DeploymentModel {
  import opened Common

  /** One status vocabulary for the services and for the deployment as a whole;
      the values the deployment's own field admits are given by the predicate below. */
  datatype Status = Pending | Building | Deployed | Connecting | Connected | Failed | Cancelled

  /** The schema enum of the deployment's own `status`. */
  predicate IsOverallStatus(s: Status) {
    s in {Pending, Building, Deployed, Failed, Cancelled}
  }

  /** The fields every service sub-document may carry. `url` and `buildTime`
      arrive through the extra fields of `updateServiceStatus`. */
  datatype ServiceState = ServiceState(
    status: Status,
    url: Option<string>,
    buildTime: Option<int>,
    lastDeployment: Option<Millis>)

  const InitialService := ServiceState(Pending, None, None, None)

  /** The extra fields merged into a service by `updateServiceStatus`
      (`Object.assign`): a present field overwrites, an absent one is kept. */
  datatype Extra = Extra(url: Option<string>, buildTime: Option<int>)

  const NoExtra := Extra(None, None)

  /** The three keys of `this.services`. */
  datatype ServiceName = FrontendService | BackendService | DatabaseService

  /** `this.services[service]` is truthy exactly for the three service keys. */
  function ParseServiceName(s: string): (r: Option<ServiceName>)
    ensures r == Some(FrontendService) <==> s == "frontend"
    ensures r == Some(BackendService) <==> s == "backend"
    ensures r == Some(DatabaseService) <==> s == "database"
  {
    if s == "frontend" then Some(FrontendService)
    else if s == "backend" then Some(BackendService)
    else if s == "database" then Some(DatabaseService)
    else None
  }

  /** `updateOverallStatus`: the overall status as a function of the three
      service statuses, characterised by the exact inputs that give each value. */
  function DeriveOverall(frontend: Status, backend: Status, database: Status): (r: Status)
    ensures IsOverallStatus(r) && r != Cancelled
    ensures r == Failed <==> frontend == Failed || backend == Failed || database == Failed
    ensures r == Deployed <==> frontend == Deployed && backend == Deployed && database == Connected
    ensures r == Building <==>
      r != Failed && r != Deployed && (frontend == Building || backend == Building)
    ensures r == Pending <==>
      frontend != Failed && backend != Failed && database != Failed &&
      frontend != Building && backend != Building &&
      !(frontend == Deployed && backend == Deployed && database == Connected)
  {
    if frontend == Failed || backend == Failed || database == Failed then Failed
    else if frontend == Deployed && backend == Deployed && database == Connected then Deployed
    else if frontend == Building || backend == Building then Building
    else Pending
  }

  /** How many services count as healthy for the `health` virtual. */
  function HealthyCount(frontend: Status, backend: Status, database: Status): (k: nat)
    ensures k <= 3
    ensures k == 3 <==> frontend == Deployed && backend == Deployed && database == Connected
    ensures k == 0 <==> frontend != Deployed && backend != Deployed && database != Connected
  {
    (if frontend == Deployed then 1 else 0) +
    (if backend == Deployed then 1 else 0) +
    (if database == Connected then 1 else 0)
  }

  /** The `health` virtual: `Math.round(healthy / 3 * 100)`. It takes one of
      four values, and is 100 exactly when the derived status is `deployed`. */
  function HealthScore(frontend: Status, backend: Status, database: Status): (h: int)
    ensures h in {0, 33, 67, 100}
    ensures h == 100 <==> DeriveOverall(frontend, backend, database) == Deployed
    ensures h == 0 <==> HealthyCount(frontend, backend, database) == 0
    ensures HealthyCount(frontend, backend, database) == 1 ==> h == 33
    ensures HealthyCount(frontend, backend, database) == 2 ==> h == 67
  {
    var k := HealthyCount(frontend, backend, database);
    var h := RoundHalfUp(k as real / 3.0 * 100.0);
    assert k == 1 ==> h == 33;
    assert k == 2 ==> h == 67;
    h
  }

  datatype LogLevel = Info | Warn | Error | Debug

  datatype LogEntry = LogEntry(level: LogLevel, message: string, service: Option<string>, timestamp: Millis)

  /** `addLog` keeps only the newest 100 entries. */
  const MaxLogs: nat := 100

  /** The log after one `addLog`: the entry is appended, then the oldest
      entries beyond the cap are dropped. */
  function Logged(logs: seq<LogEntry>, e: LogEntry): (r: seq<LogEntry>)
    ensures |r| == if |logs| < MaxLogs then |logs| + 1 else MaxLogs
    ensures r[|r| - 1] == e
    ensures r == (logs + [e])[|logs| + 1 - |r|..]
  {
    KeepLast(logs + [e], MaxLogs)
  }

  /** A sequence of `addLog` calls, oldest entry first. */
  function LoggedAll(logs: seq<LogEntry>, es: seq<LogEntry>): seq<LogEntry>
    decreases |es|
  {
    if es == [] then logs else LoggedAll(Logged(logs, es[0]), es[1..])
  }

  /** Capping once per append is the same as capping once at the end. */
  lemma CapThenAppend(s: seq<LogEntry>, e: LogEntry)
    ensures KeepLast(KeepLast(s, MaxLogs) + [e], MaxLogs) == KeepLast(s + [e], MaxLogs)
  {
    if |s| > MaxLogs {
      assert (s + [e])[|s| + 1 - MaxLogs..] == (s[|s| - MaxLogs..] + [e])[1..];
    }
  }

  /** However many entries are appended one at a time, the log is exactly the
      newest 100 of everything appended, in order. */
  lemma {:induction false} LoggedAllKeepsNewest(logs: seq<LogEntry>, es: seq<LogEntry>)
    requires |logs| <= MaxLogs
    ensures LoggedAll(logs, es) == KeepLast(logs + es, MaxLogs)
    decreases |es|
  {
    if es == [] {
      assert logs + es == logs;
    } else {
      var grown := logs + [es[0]];
      var next := KeepLast(grown, MaxLogs);
      calc {
        LoggedAll(logs, es);
        LoggedAll(next, es[1..]);
        { LoggedAllKeepsNewest(next, es[1..]); }
        KeepLast(next + es[1..], MaxLogs);
        { CapThenAppendMany(grown, es[1..]); }
        KeepLast(grown + es[1..], MaxLogs);
        { assert grown + es[1..] == logs + es; }
        KeepLast(logs + es, MaxLogs);
      }
    }
  }

  lemma {:induction false} CapThenAppendMany(s: seq<LogEntry>, es: seq<LogEntry>)
    ensures KeepLast(KeepLast(s, MaxLogs) + es, MaxLogs) == KeepLast(s + es, MaxLogs)
    decreases |es|
  {
    if es == [] {
      assert KeepLast(s, MaxLogs) + es == KeepLast(s, MaxLogs);
      assert s + es == s;
    } else {
      var k := KeepLast(s, MaxLogs);
      CapThenAppend(s, es[0]);
      assert k + es == (k + [es[0]]) + es[1..];
      assert s + es == (s + [es[0]]) + es[1..];
      CapThenAppendMany(k + [es[0]], es[1..]);
      CapThenAppendMany(s + [es[0]], es[1..]);
    }
  }

  /** Appending 150 entries to an empty log leaves exactly the last 100 of them. */
  lemma OneHundredFiftyAppends(es: seq<LogEntry>)
    requires |es| == 150
    ensures LoggedAll([], es) == es[50..]
  {
    LoggedAllKeepsNewest([], es);
    assert [] + es == es;
  }

  datatype HealthStatus = Healthy | Unhealthy | Checking

  datatype HealthCheck = HealthCheck(
    service: string,
    status: HealthStatus,
    responseTime: int,
    lastCheck: Millis,
    uptime: real)

  /** What the HTTP client observed for one GET: a response with its status
      code after `elapsed` milliseconds, or no response at all. */
  datatype ProbeOutcome = Response(code: int, elapsed: nat) | NoResponse

  /** The `timeout` given to every probe. */
  const ProbeTimeoutMillis: nat := 5000

  /** The client resolves (rather than throws) only on a 2xx answer within the timeout. */
  predicate Reachable(o: ProbeOutcome) {
    o.Response? && 200 <= o.code < 300 && o.elapsed <= ProbeTimeoutMillis
  }

  /** The entry `performHealthCheck` pushes for one probe: every failure mode
      collapses into `unhealthy` with zero response time and zero uptime. */
  function ProbeResult(service: string, o: ProbeOutcome, now: Millis): (r: HealthCheck)
    ensures r.service == service && r.lastCheck == now
    ensures r.status == Healthy <==> Reachable(o)
    ensures r.status == Healthy ==> r.responseTime == o.elapsed && r.uptime == 100.0
    ensures r.status != Healthy ==> r.status == Unhealthy && r.responseTime == 0 && r.uptime == 0.0
  {
    if Reachable(o) then HealthCheck(service, Healthy, o.elapsed, now, 100.0)
    else HealthCheck(service, Unhealthy, 0, now, 0.0)
  }

  /** The `configuration` sub-document (environment variables are not modelled). */
  datatype Configuration = Configuration(
    buildCommand: Option<string>,
    startCommand: Option<string>,
    nodeVersion: Option<string>,
    packageManager: Option<string>)

  /** A stored deployment document. */
  class Deployment {
    const id: DeploymentId
    var owner: UserId
    var name: string
    var status: Status
    var frontend: ServiceState
    var backend: ServiceState
    var database: ServiceState
    var logs: seq<LogEntry>
    var healthChecks: seq<HealthCheck>
    var configuration: Configuration

    /** The log never holds more than `MaxLogs` entries. */
    ghost predicate Valid()
      reads this
    {
      |logs| <= MaxLogs
    }

    /** `Deployment.create`: every status at its schema default, no logs, no health checks. */
    constructor (id: DeploymentId, owner: UserId, name: string, configuration: Configuration)
      ensures Valid()
      ensures this.id == id && this.owner == owner && this.name == name
      ensures this.configuration == configuration
      ensures status == Pending && frontend == InitialService && backend == InitialService
      ensures database == InitialService && logs == [] && healthChecks == []
    {
      this.id := id;
      this.owner := owner;
      this.name := name;
      this.configuration := configuration;
      status := Pending;
      frontend := InitialService;
      backend := InitialService;
      database := InitialService;
      logs := [];
      healthChecks := [];
    }

    /** The `health` virtual, counted with a mutable tally as the getter does. */
    method Health() returns (h: int)
      ensures h == HealthScore(frontend.status, backend.status, database.status)
    {
      var healthy := 0;
      if frontend.status == Deployed { healthy := healthy + 1; }
      if backend.status == Deployed { healthy := healthy + 1; }
      if database.status == Connected { healthy := healthy + 1; }
      h := RoundHalfUp(healthy as real / 3.0 * 100.0);
    }

    /** `addLog`: append the entry stamped `now`, then keep only the newest 100. */
    method AddLog(level: LogLevel, message: string, service: Option<string>, now: Millis)
      modifies this`logs
      ensures Valid()
      ensures logs == Logged(old(logs), LogEntry(level, message, service, now))
    {
      logs := logs + [LogEntry(level, message, service, now)];
      if |logs| > MaxLogs {
        logs := logs[|logs| - MaxLogs..];
      }
    }

    /** `updateOverallStatus`: recompute the status from the three services. */
    method UpdateOverallStatus()
      modifies this`status
      ensures status == DeriveOverall(frontend.status, backend.status, database.status)
    {
      if frontend.status == Failed || backend.status == Failed || database.status == Failed {
        status := Failed;
      } else if frontend.status == Deployed && backend.status == Deployed && database.status == Connected {
        status := Deployed;
      } else if frontend.status == Building || backend.status == Building {
        status := Building;
      } else {
        status := Pending;
      }
    }

    /** `updateServiceStatus`: an unknown service name throws before anything
        changes; otherwise the named service gets the new status, the time of
        this deployment and the extra fields, the other two services keep their
        state, and the overall status is re-derived. */
    method UpdateServiceStatus(service: string, newStatus: Status, extra: Extra, now: Millis)
      returns (ok: bool)
      modifies this`frontend, this`backend, this`database, this`status
      ensures ok <==> ParseServiceName(service).Some?
      ensures !ok ==> frontend == old(frontend) && backend == old(backend)
      ensures !ok ==> database == old(database) && status == old(status)
      ensures ok ==> frontend == if service == "frontend" then Updated(old(frontend), newStatus, extra, now) else old(frontend)
      ensures ok ==> backend == if service == "backend" then Updated(old(backend), newStatus, extra, now) else old(backend)
      ensures ok ==> database == if service == "database" then Updated(old(database), newStatus, extra, now) else old(database)
      ensures ok ==> status == DeriveOverall(frontend.status, backend.status, database.status)
    {
      var name := ParseServiceName(service);
      if name.None? {
        return false;
      }
      match name.value {
        case FrontendService => frontend := Updated(frontend, newStatus, extra, now);
        case BackendService => backend := Updated(backend, newStatus, extra, now);
        case DatabaseService => database := Updated(database, newStatus, extra, now);
      }
      UpdateOverallStatus();
      ok := true;
    }

    /** `performHealthCheck`: probe the frontend url and the backend's
        `/api/health`, each only when its url is set, and replace the list
        wholesale. The deployment status is left alone. */
    method PerformHealthCheck(net: string -> ProbeOutcome, now: Millis)
      modifies this`healthChecks
      ensures status == old(status)
      ensures |healthChecks| == (if IsSet(frontend.url) then 1 else 0) + (if IsSet(backend.url) then 1 else 0)
      ensures IsSet(frontend.url) ==>
        healthChecks[0] == ProbeResult("Frontend", net(frontend.url.value), now)
      ensures IsSet(backend.url) ==>
        healthChecks[|healthChecks| - 1] == ProbeResult("Backend", net(backend.url.value + "/api/health"), now)
    {
      var checks: seq<HealthCheck> := [];
      if IsSet(frontend.url) {
        checks := checks + [ProbeResult("Frontend", net(frontend.url.value), now)];
      }
      if IsSet(backend.url) {
        checks := checks + [ProbeResult("Backend", net(backend.url.value + "/api/health"), now)];
      }
      healthChecks := checks;
    }
  }

  /** A service after `updateServiceStatus`: new status, `lastDeployment = now`,
      then the extra fields merged over it. */
  function Updated(s: ServiceState, newStatus: Status, extra: Extra, now: Millis): (r: ServiceState)
    ensures r.status == newStatus && r.lastDeployment == Some(now)
    ensures r.url == if extra.url.Some? then extra.url else s.url
    ensures r.buildTime == if extra.buildTime.Some? then extra.buildTime else s.buildTime
  {
    ServiceState(
      newStatus,
      if extra.url.Some? then extra.url else s.url,
      if extra.buildTime.Some? then extra.buildTime else s.buildTime,
      Some(now))
  }
}
