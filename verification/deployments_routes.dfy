/** The deployment routes (backend/routes/deployments.js): the paginated list,
    the logs view, the deploy trigger and its simulated continuation, and the
    delete cascade into the metric collection. */
module DeploymentsRoutes {
  import opened Common
  import opened DeploymentModel
  import opened MetricModel
  import opened UserModel

  const StatusOk: int := 200
  const StatusBadRequest: int := 400
  const StatusForbidden: int := 403
  const StatusNotFound: int := 404

  // ---------------------------------------------------------------- listing

  /** One page of a listing and its `pagination` block. */
  datatype Page<T> = Page(items: seq<T>, page: nat, limit: nat, total: nat, pages: nat)

  /** `Math.ceil(total / limit)`: the fewest pages of `limit` items that hold `total` items. */
  function PageCount(total: nat, limit: nat): (pages: nat)
    requires limit > 0
    ensures pages * limit >= total
    ensures pages > 0 ==> (pages - 1) * limit < total
  {
    var q := (total + limit - 1) / limit;
    var rem := (total + limit - 1) % limit;
    assert q * limit == total + limit - 1 - rem;
    assert q > 0 ==> (q - 1) * limit == q * limit - limit;
    q
  }

  /** The index of the first item of page `page`: `(page - 1) * limit`. */
  function PageStart(page: nat, limit: nat): nat
    requires page >= 1
  {
    (page - 1) * limit
  }

  /** GET /api/deployments over the owner's deployments, already filtered and
      newest first: `page` must be at least 1 and `limit` between 1 and 100
      when given (otherwise a validation failure), they default to 1 and 10,
      and the page skips `(page - 1) * limit` items and keeps the next `limit`. */
  function Paginate<T>(all: seq<T>, page: Option<int>, limit: Option<int>): (r: Option<Page<T>>)
    ensures r.None? <==> (page.Some? && page.value < 1) || (limit.Some? && !(1 <= limit.value <= 100))
    ensures r.Some? ==>
      && r.value.page == page.GetOr(1) && r.value.limit == limit.GetOr(10)
      && r.value.total == |all|
      && r.value.pages == PageCount(|all|, r.value.limit)
      && |r.value.items| == Min(r.value.limit, |all| - Min(PageStart(r.value.page, r.value.limit), |all|))
      && forall i :: 0 <= i < |r.value.items| ==>
           PageStart(r.value.page, r.value.limit) + i < |all|
           && r.value.items[i] == all[PageStart(r.value.page, r.value.limit) + i]
  {
    if (page.Some? && page.value < 1) || (limit.Some? && !(1 <= limit.value <= 100)) then None
    else
      var p: nat := page.GetOr(1);
      var l: nat := limit.GetOr(10);
      var from := Min(PageStart(p, l), |all|);
      var to := Min(from + l, |all|);
      Some(Page(all[from..to], p, l, |all|, PageCount(|all|, l)))
  }

  lemma MulLeft(a: nat, b: nat, c: nat)
    ensures a <= b ==> a * c <= b * c
  {
  }

  /** Item `i` of the listing is item `i % limit` of page `i / limit + 1`,
      and that page is never past the last one. */
  lemma ItemOnItsPage<T>(all: seq<T>, limit: nat, i: nat)
    requires 1 <= limit <= 100 && i < |all|
    ensures var p := i / limit + 1;
      && p <= PageCount(|all|, limit)
      && Paginate(all, Some(p), Some(limit)).Some?
      && i % limit < |Paginate(all, Some(p), Some(limit)).value.items|
      && Paginate(all, Some(p), Some(limit)).value.items[i % limit] == all[i]
  {
    var p := i / limit + 1;
    assert PageStart(p, limit) == i - i % limit;
    var pages := PageCount(|all|, limit);
    MulLeft(pages, p - 1, limit);
  }

  /** No other page holds index `i`: the page ranges are disjoint. */
  lemma PageOfIndex(i: nat, limit: nat, q: nat)
    requires limit >= 1 && q >= 1 && PageStart(q, limit) <= i < PageStart(q, limit) + limit
    ensures q == i / limit + 1
  {
    var d := i / limit;
    assert d * limit <= i < (d + 1) * limit;
    MulLeft(q, d, limit);
    MulLeft(d + 1, q - 1, limit);
  }

  // ---------------------------------------------------------------- logs view

  function ParseLogLevel(s: string): (r: Option<LogLevel>)
    ensures r == Some(Info) <==> s == "info"
    ensures r == Some(Warn) <==> s == "warn"
    ensures r == Some(Error) <==> s == "error"
    ensures r == Some(Debug) <==> s == "debug"
  {
    if s == "info" then Some(Info)
    else if s == "warn" then Some(Warn)
    else if s == "error" then Some(Error)
    else if s == "debug" then Some(Debug)
    else None
  }

  /** The `level` filter: every entry when no level is given. */
  function Admits(level: Option<LogLevel>): LogEntry -> bool {
    (e: LogEntry) => level.None? || e.level == level.value
  }

  /** The entries a `level` filter admits, oldest first. */
  function OfLevel(logs: seq<LogEntry>, level: Option<LogLevel>): seq<LogEntry> {
    Filter(logs, Admits(level))
  }

  /** The level a valid `level` query names, if any. */
  function WantedLevel(level: Option<string>): Option<LogLevel> {
    if level.Some? then ParseLogLevel(level.value) else None
  }

  /** GET /api/deployments/:id/logs on an accessible deployment: `limit` must
      lie in 1..1000 and `level` be a log level when given; the entries of the
      level (all when none is given), the last `limit` of them (100 by
      default), most recent first. */
  function LogsView(logs: seq<LogEntry>, level: Option<string>, limit: Option<int>): (r: Option<seq<LogEntry>>)
    ensures r.None? <==>
      (limit.Some? && !(1 <= limit.value <= 1000)) || (level.Some? && ParseLogLevel(level.value).None?)
    ensures r.Some? ==> r.value == NewestOfLevel(logs, WantedLevel(level), limit.GetOr(100))
  {
    if (limit.Some? && !(1 <= limit.value <= 1000)) || (level.Some? && ParseLogLevel(level.value).None?) then None
    else Some(NewestOfLevel(logs, WantedLevel(level), limit.GetOr(100)))
  }

  /** The query of a valid logs request: the last `n` entries of the level
      (all levels when none), most recent first. */
  function NewestOfLevel(logs: seq<LogEntry>, level: Option<LogLevel>, n: nat): (r: seq<LogEntry>)
    requires n > 0
    ensures var matching := OfLevel(logs, level);
      && |r| == Min(n, |matching|) <= |matching|
      && (forall i :: 0 <= i < |r| ==> r[i] == matching[|matching| - 1 - i])
      && (forall i :: 0 <= i < |r| ==> Admits(level)(r[i]))
  {
    NewestN(OfLevel(logs, level), n)
  }

  /** The first entry of the view is the newest entry of the requested level. */
  lemma LogsViewNewestFirst(logs: seq<LogEntry>, level: LogLevel)
    requires OfLevel(logs, Some(level)) != []
    ensures var r := LogsView(logs, Some(LogLevelName(level)), None);
      && r.Some? && r.value != []
      && r.value[0] == logs[LastIndex(logs, Admits(Some(level)))]
  {
    FilterLast(logs, Admits(Some(level)));
  }

  function LogLevelName(l: LogLevel): (s: string)
    ensures ParseLogLevel(s) == Some(l)
  {
    match l
    case Info => "info"
    case Warn => "warn"
    case Error => "error"
    case Debug => "debug"
  }

  // ---------------------------------------------------------------- deploy

  /** The fixed origin every log entry of these routes carries. */
  const SystemService: Option<string> := Some("system")

  /** POST /api/deployments/:id/deploy, synchronous part: the status is set
      to `building` before anything else, then the trigger is logged. */
  method TriggerDeploy(d: Deployment, now: Millis)
    requires d.Valid()
    modifies d`status, d`logs
    ensures d.Valid()
    ensures d.status == Building
    ensures d.logs == Logged(old(d.logs), LogEntry(Info, "Deployment triggered", SystemService, now))
  {
    d.status := Building;
    d.AddLog(Info, "Deployment triggered", SystemService, now);
  }

  /** The extra fields of the frontend step: the Vercel url of the deployment
      and a build time between 30 s and 2.5 min, from the draw `r`. */
  function FrontendExtra(name: string, r: real): (e: Extra)
    requires 0.0 <= r < 1.0
    ensures e.url.Some? && e.buildTime.Some?
    ensures 30000 <= e.buildTime.value < 150000
  {
    Extra(Some("https://" + name + "-frontend.vercel.app"), Some(RandomInt(r, 120000, 30000)))
  }

  /** The extra fields of the backend step: the Render url of the deployment
      and a build time between 1 min and 4 min, from the draw `r`. */
  function BackendExtra(name: string, r: real): (e: Extra)
    requires 0.0 <= r < 1.0
    ensures e.url.Some? && e.buildTime.Some?
    ensures 60000 <= e.buildTime.value < 240000
  {
    Extra(Some("https://" + name + "-backend.onrender.com"), Some(RandomInt(r, 180000, 60000)))
  }

  /** A persistence error thrown by the `save()` of step `step` of the
      simulated sequence (0: frontend, 1: backend, 2: database, 3: the closing
      log entry); the in-memory change of that step has already been made. */
  datatype Fault = Fault(step: nat, message: string)

  /** Whether step `k` of the simulated sequence made its change. */
  predicate Reaches(fault: Option<Fault>, k: nat) {
    fault.None? || fault.value.step >= k
  }

  /** Whether the simulated sequence ends in its `catch` block. */
  predicate Aborts(fault: Option<Fault>) {
    fault.Some? && fault.value.step <= 3
  }

  /** The closing entry of a simulated deployment that ran every step. */
  const CompletedEntryMessage := "Deployment completed successfully"

  /** The `try` block of the timer callback: the three service updates in
      order, then the closing log entry, each reached only when no earlier
      step threw. */
  method RunDeploySteps(d: Deployment, fe: Extra, be: Extra, fault: Option<Fault>, now: Millis)
    requires d.Valid()
    modifies d`frontend, d`backend, d`database, d`status, d`logs
    ensures d.Valid()
    ensures d.frontend == Updated(old(d.frontend), Deployed, fe, now)
    ensures d.backend == if Reaches(fault, 1) then Updated(old(d.backend), Deployed, be, now) else old(d.backend)
    ensures d.database == if Reaches(fault, 2) then Updated(old(d.database), Connected, NoExtra, now) else old(d.database)
    ensures d.logs == if Reaches(fault, 3)
      then Logged(old(d.logs), LogEntry(Info, CompletedEntryMessage, SystemService, now))
      else old(d.logs)
    ensures Reaches(fault, 3) ==> d.status == Deployed
  {
    var ok := d.UpdateServiceStatus("frontend", Deployed, fe, now);
    if Reaches(fault, 1) {
      ok := d.UpdateServiceStatus("backend", Deployed, be, now);
      if Reaches(fault, 2) {
        ok := d.UpdateServiceStatus("database", Connected, NoExtra, now);
        if Reaches(fault, 3) {
          d.AddLog(Info, CompletedEntryMessage, SystemService, now);
        }
      }
    }
  }

  /** The timer callback of the deploy trigger, run to completion: frontend
      `deployed` with its Vercel url and a build time in [30 s, 150 s), backend
      `deployed` with its Render url and a build time in [60 s, 240 s),
      database `connected`, and a closing log entry. A throw at any step sets
      the status to `failed` and logs the error message. `r1` and `r2` are the
      two `Math.random()` draws. */
  method SimulateDeploy(d: Deployment, r1: real, r2: real, fault: Option<Fault>, now: Millis)
    requires 0.0 <= r1 < 1.0 && 0.0 <= r2 < 1.0
    requires d.Valid()
    modifies d`frontend, d`backend, d`database, d`status, d`logs
    ensures d.Valid()
    ensures d.frontend == Updated(old(d.frontend), Deployed, FrontendExtra(d.name, r1), now)
    ensures d.backend == if Reaches(fault, 1)
      then Updated(old(d.backend), Deployed, BackendExtra(d.name, r2), now)
      else old(d.backend)
    ensures d.database == if Reaches(fault, 2) then Updated(old(d.database), Connected, NoExtra, now) else old(d.database)
    ensures d.status == if Aborts(fault) then Failed else Deployed
    ensures d.logs == DeployLogs(old(d.logs), fault, now)
    ensures !Aborts(fault) ==> HealthScore(d.frontend.status, d.backend.status, d.database.status) == 100
  {
    ghost var logs0 := d.logs;
    var fe, be := FrontendExtra(d.name, r1), BackendExtra(d.name, r2);
    RunDeploySteps(d, fe, be, fault, now);
    if Aborts(fault) {
      RecordFailure(d, fault.value.message, now);
    }
    assert d.logs == DeployLogs(logs0, fault, now);
  }

  /** The log after the timer callback: the closing entry when every step
      succeeded, then the error entry when one threw. */
  function DeployLogs(logs: seq<LogEntry>, fault: Option<Fault>, now: Millis): seq<LogEntry>
  {
    var closed := if Reaches(fault, 3)
      then Logged(logs, LogEntry(Info, CompletedEntryMessage, SystemService, now))
      else logs;
    if Aborts(fault)
    then Logged(closed, LogEntry(Error, "Deployment failed: " + fault.value.message, SystemService, now))
    else closed
  }

  /** The log of a simulated deployment ends with the closing entry when no
      step threw, and with the error entry when one did; it stays capped. */
  lemma DeployLogsEnd(logs: seq<LogEntry>, fault: Option<Fault>, now: Millis)
    requires |logs| <= MaxLogs
    ensures var r := DeployLogs(logs, fault, now);
      && 0 < |r| <= MaxLogs
      && (fault.None? ==> r[|r| - 1] == LogEntry(Info, CompletedEntryMessage, SystemService, now))
      && (Aborts(fault) ==>
            r[|r| - 1] == LogEntry(Error, "Deployment failed: " + fault.value.message, SystemService, now))
  {
  }

  /** The `catch` block of the timer callback: the status becomes `failed`
      and the error is logged. */
  method RecordFailure(d: Deployment, message: string, now: Millis)
    requires d.Valid()
    modifies d`status, d`logs
    ensures d.Valid()
    ensures d.status == Failed
    ensures d.logs == Logged(old(d.logs), LogEntry(Error, "Deployment failed: " + message, SystemService, now))
  {
    d.status := Failed;
    d.AddLog(Error, "Deployment failed: " + message, SystemService, now);
  }

  // ---------------------------------------------------------------- delete

  /** The deployment and metric collections. */
  class Store {
    var deployments: map<DeploymentId, Deployment>
    const metrics: MetricCollection

    constructor (metrics: MetricCollection)
      ensures deployments == map[] && this.metrics == metrics
    {
      deployments := map[];
      this.metrics := metrics;
    }

    /** DELETE /api/deployments/:id: 404 for an unknown id, 403 unless the
        requester owns it or is an admin, otherwise the deployment goes and so
        does every metric sample that names it. */
    method DeleteDeployment(id: DeploymentId, requester: UserId, role: Role) returns (code: int)
      modifies this`deployments, metrics
      ensures id !in old(deployments) ==> code == StatusNotFound
      ensures id in old(deployments) && !CanAccess(old(deployments)[id].owner, requester, role) ==>
        code == StatusForbidden
      ensures code != StatusOk ==> deployments == old(deployments) && metrics.samples == old(metrics.samples)
      ensures code == StatusOk <==> id in old(deployments) && CanAccess(old(deployments)[id].owner, requester, role)
      ensures code == StatusOk ==>
        && deployments == old(deployments) - {id}
        && metrics.samples == Filter(old(metrics.samples), (x: Sample) => x.deployment != id)
    {
      if id !in deployments {
        return StatusNotFound;
      }
      if !CanAccess(deployments[id].owner, requester, role) {
        return StatusForbidden;
      }
      deployments := deployments - {id};
      var _ := metrics.DeleteForDeployment(id);
      code := StatusOk;
    }
  }

  /** After the cascade, no query about the deleted deployment finds anything,
      and every query about another deployment finds what it found before. */
  lemma CascadeLeavesNoOrphans(samples: seq<Sample>, id: DeploymentId, q: Query)
    ensures var kept := Filter(samples, (x: Sample) => x.deployment != id);
      && (q.deployment == id ==> Find(kept, q) == [])
      && (q.deployment != id ==> Find(kept, q) == Find(samples, q))
  {
    var p := (x: Sample) => x.deployment != id;
    var kept := Filter(samples, p);
    if q.deployment != id {
      FilterAbsorbs(samples, p, (x: Sample) => Matches(q, x));
    }
  }
}
