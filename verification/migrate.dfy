/** The maintenance migrations (backend/scripts/migrate.js): default-filling
    transforms over the user and deployment collections, a retention sweep
    over the metric samples, and the dispatch that runs one migration by name
    or all of them in declaration order. Each collection is the sequence of
    its stored documents, each document held once. */
module Migrate {
  import opened Common
  import opened UserModel
  import opened DeploymentModel
  import opened MetricModel

  // ---------------------------------------------------------------- user preferences

  /** `updateUserPreferences` on one user: the defaults for a user without
      preferences, the stored preferences otherwise. */
  function WithDefaultPreferences(p: Option<Preferences>): (r: Option<Preferences>)
    ensures r.Some?
    ensures p.Some? ==> r == p
    ensures p.None? ==> r == Some(DefaultPreferences)
  {
    if p.None? then Some(DefaultPreferences) else p
  }

  /** A second run changes nothing. */
  lemma PreferencesIdempotent(p: Option<Preferences>)
    ensures WithDefaultPreferences(WithDefaultPreferences(p)) == WithDefaultPreferences(p)
  {
  }

  /** Each document of a collection occurs once. */
  predicate Distinct<T(==)>(s: seq<T>) {
    forall i, j :: 0 <= i < j < |s| ==> s[i] != s[j]
  }

  /** `updateUserPreferences`: every user found without preferences gets the
      defaults and is saved; users with preferences are left as they are. */
  method UpdateUserPreferences(users: seq<User>)
    requires Distinct(users)
    modifies users`preferences
    ensures forall u :: u in users ==> u.preferences == WithDefaultPreferences(old(u.preferences))
    ensures forall u :: u in users ==> u.Login() == old(u.Login()) && u.role == old(u.role) && u.lastLogin == old(u.lastLogin)
  {
    for i := 0 to |users|
      invariant forall j :: 0 <= j < i ==> users[j].preferences == WithDefaultPreferences(old(users[j].preferences))
      invariant forall j :: i <= j < |users| ==> users[j].preferences == old(users[j].preferences)
    {
      var u := users[i];
      if u.preferences.None? {
        u.preferences := Some(DefaultPreferences);
      }
    }
  }

  // ---------------------------------------------------------------- health checks

  const FrontendCheckName := "Frontend (Vercel)"
  const BackendCheckName := "Backend API (Render)"
  const DatabaseCheckName := "MongoDB Atlas"

  /** The three `Math.random()` draws a deployment may consume, one per service. */
  datatype Draws = Draws(frontend: real, backend: real, database: real)

  predicate ValidDraws(r: Draws) {
    0.0 <= r.frontend < 1.0 && 0.0 <= r.backend < 1.0 && 0.0 <= r.database < 1.0
  }

  /** The entry for one service when that service is running, none otherwise. */
  function EntryIf(running: bool, name: string, draw: real, span: nat, base: int, uptime: real, now: Millis)
    : (e: seq<HealthCheck>)
    requires 0.0 <= draw < 1.0 && span > 0
    ensures |e| == if running then 1 else 0
    ensures forall c :: c in e ==>
      c.service == name && c.status == Healthy && c.lastCheck == now && c.uptime == uptime
      && base <= c.responseTime < base + span
  {
    if running then [HealthCheck(name, Healthy, RandomInt(draw, span, base), now, uptime)] else []
  }

  /** The entries `addHealthChecks` builds for a deployment whose services
      have the given statuses, in frontend, backend, database order. */
  function InitialChecks(frontend: Status, backend: Status, database: Status, r: Draws, now: Millis)
    : (checks: seq<HealthCheck>)
    requires ValidDraws(r)
    ensures |checks| == (if frontend == Deployed then 1 else 0) + (if backend == Deployed then 1 else 0)
                        + (if database == Connected then 1 else 0)
    // every entry is healthy and stamped now
    ensures forall c :: c in checks ==> c.status == Healthy && c.lastCheck == now
  {
    EntryIf(frontend == Deployed, FrontendCheckName, r.frontend, 200, 100, 99.9, now) +
    EntryIf(backend == Deployed, BackendCheckName, r.backend, 300, 150, 99.8, now) +
    EntryIf(database == Connected, DatabaseCheckName, r.database, 100, 50, 99.99, now)
  }

  /** An entry is present for a service exactly when that service is deployed
      (frontend, backend) or connected (database), and each entry carries its
      service's uptime and a response time in its service's range. */
  lemma InitialChecksPerService(frontend: Status, backend: Status, database: Status, r: Draws, now: Millis)
    requires ValidDraws(r)
    ensures var checks := InitialChecks(frontend, backend, database, r, now);
      && ((exists c :: c in checks && c.service == FrontendCheckName) <==> frontend == Deployed)
      && ((exists c :: c in checks && c.service == BackendCheckName) <==> backend == Deployed)
      && ((exists c :: c in checks && c.service == DatabaseCheckName) <==> database == Connected)
      && (forall c :: c in checks && c.service == FrontendCheckName ==> 100 <= c.responseTime < 300 && c.uptime == 99.9)
      && (forall c :: c in checks && c.service == BackendCheckName ==> 150 <= c.responseTime < 450 && c.uptime == 99.8)
      && (forall c :: c in checks && c.service == DatabaseCheckName ==> 50 <= c.responseTime < 150 && c.uptime == 99.99)
  {
    assert FrontendCheckName != BackendCheckName && FrontendCheckName != DatabaseCheckName;
    assert BackendCheckName != DatabaseCheckName by {
      assert BackendCheckName[0] != DatabaseCheckName[0];
    }
    var fs := EntryIf(frontend == Deployed, FrontendCheckName, r.frontend, 200, 100, 99.9, now);
    var bs := EntryIf(backend == Deployed, BackendCheckName, r.backend, 300, 150, 99.8, now);
    var ds := EntryIf(database == Connected, DatabaseCheckName, r.database, 100, 50, 99.99, now);
    var checks := InitialChecks(frontend, backend, database, r, now);
    assert checks == fs + bs + ds;
    assert forall c :: c in checks <==> c in fs || c in bs || c in ds;
    if frontend == Deployed {
      assert fs[0] in checks;
    }
    if backend == Deployed {
      assert bs[0] in checks;
    }
    if database == Connected {
      assert ds[0] in checks;
    }
  }

  /** `addHealthChecks` on one deployment: only an empty list is replaced. */
  function ChecksAfterMigration(old_checks: seq<HealthCheck>, frontend: Status, backend: Status, database: Status,
                                r: Draws, now: Millis): (checks: seq<HealthCheck>)
    requires ValidDraws(r)
    ensures old_checks != [] ==> checks == old_checks
    ensures old_checks == [] ==> checks == InitialChecks(frontend, backend, database, r, now)
  {
    if old_checks == [] then InitialChecks(frontend, backend, database, r, now) else old_checks
  }

  /** A deployment with nothing deployed or connected gets an empty list, so a
      later run would select it again and again leave it empty. */
  lemma NothingRunningNoChecks(r: Draws, now: Millis)
    requires ValidDraws(r)
    ensures ChecksAfterMigration([], Pending, Failed, Connecting, r, now) == []
  {
  }

  /** `addHealthChecks`: every deployment with an empty health-check list gets
      the entries of its running services; `r[i]` are the draws made for
      `deployments[i]`. */
  method AddHealthChecks(deployments: seq<Deployment>, r: seq<Draws>, now: Millis)
    requires Distinct(deployments) && |r| == |deployments|
    requires forall i :: 0 <= i < |r| ==> ValidDraws(r[i])
    modifies deployments`healthChecks
    ensures forall i :: 0 <= i < |deployments| ==>
      var d := deployments[i];
      && d.healthChecks == ChecksAfterMigration(old(d.healthChecks), d.frontend.status, d.backend.status,
                                                d.database.status, r[i], now)
    ensures forall d :: d in deployments ==>
      && d.frontend == old(d.frontend) && d.backend == old(d.backend) && d.database == old(d.database)
      && d.status == old(d.status) && d.logs == old(d.logs) && d.configuration == old(d.configuration)
  {
    for i := 0 to |deployments|
      invariant forall j :: 0 <= j < i ==>
        var d := deployments[j];
        d.healthChecks == ChecksAfterMigration(old(d.healthChecks), d.frontend.status, d.backend.status,
                                               d.database.status, r[j], now)
      invariant forall j :: i <= j < |deployments| ==> deployments[j].healthChecks == old(deployments[j].healthChecks)
    {
      var d := deployments[i];
      if |d.healthChecks| == 0 {
        var checks: seq<HealthCheck> := [];
        if d.frontend.status == Deployed {
          checks := checks + [HealthCheck(FrontendCheckName, Healthy, RandomInt(r[i].frontend, 200, 100), now, 99.9)];
        }
        if d.backend.status == Deployed {
          checks := checks + [HealthCheck(BackendCheckName, Healthy, RandomInt(r[i].backend, 300, 150), now, 99.8)];
        }
        if d.database.status == Connected {
          checks := checks + [HealthCheck(DatabaseCheckName, Healthy, RandomInt(r[i].database, 100, 50), now, 99.99)];
        }
        d.healthChecks := checks;
      }
    }
  }

  // ---------------------------------------------------------------- old metrics

  /** `cleanupOldMetrics`: `deleteMany` of every sample stamped before thirty
      days ago; every younger sample stays, in order. */
  method CleanupOldMetrics(metrics: MetricCollection, now: Millis) returns (deleted: nat)
    modifies metrics
    ensures metrics.samples == Expire(old(metrics.samples), now)
    ensures forall x :: multiset(metrics.samples)[x] == if x.timestamp < now - RetentionMillis then 0 else multiset(old(metrics.samples))[x]
    ensures deleted == |old(metrics.samples)| - |metrics.samples|
  {
    deleted := metrics.DeleteOlderThan(now - RetentionMillis);
  }

  // ---------------------------------------------------------------- configuration

  /** `value || fallback`: a missing or empty string takes the fallback. */
  function OrDefault(value: Option<string>, fallback: string): (r: string)
    ensures value.Some? && value.value != "" ==> r == value.value
    ensures value.None? || value.value == "" ==> r == fallback
  {
    if value.Some? && value.value != "" then value.value else fallback
  }

  /** The configuration `updateDeploymentConfig` writes: each of the four
      fields keeps a non-empty stored value and otherwise takes its default. */
  function FilledConfiguration(c: Configuration): (r: Configuration)
    ensures r.buildCommand == Some(OrDefault(c.buildCommand, "npm run build"))
    ensures r.startCommand == Some(OrDefault(c.startCommand, "npm start"))
    ensures r.nodeVersion == Some(OrDefault(c.nodeVersion, "18.x"))
    ensures r.packageManager == Some(OrDefault(c.packageManager, "npm"))
  {
    Configuration(
      Some(OrDefault(c.buildCommand, "npm run build")),
      Some(OrDefault(c.startCommand, "npm start")),
      Some(OrDefault(c.nodeVersion, "18.x")),
      Some(OrDefault(c.packageManager, "npm")))
  }

  /** `updateDeploymentConfig` on one deployment: only a configuration without
      a package manager is selected and rewritten. */
  function ConfigAfterMigration(c: Configuration): (r: Configuration)
    ensures c.packageManager.Some? ==> r == c
    ensures c.packageManager.None? ==> r == FilledConfiguration(c)
  {
    if c.packageManager.None? then FilledConfiguration(c) else c
  }

  /** After the migration every field is present and non-empty where it was
      rewritten, non-empty values already stored survive, and a second run
      selects nothing. */
  lemma ConfigMigrationFacts(c: Configuration)
    requires c.packageManager.None?
    ensures var r := ConfigAfterMigration(c);
      && r.buildCommand.Some? && r.buildCommand.value != ""
      && r.startCommand.Some? && r.startCommand.value != ""
      && r.nodeVersion.Some? && r.nodeVersion.value != ""
      && r.packageManager == Some("npm")
      && (c.buildCommand.Some? && c.buildCommand.value != "" ==> r.buildCommand == c.buildCommand)
      && (c.startCommand.Some? && c.startCommand.value != "" ==> r.startCommand == c.startCommand)
      && (c.nodeVersion.Some? && c.nodeVersion.value != "" ==> r.nodeVersion == c.nodeVersion)
  {
  }

  lemma ConfigMigrationIdempotent(c: Configuration)
    ensures ConfigAfterMigration(ConfigAfterMigration(c)) == ConfigAfterMigration(c)
    ensures ConfigAfterMigration(c).packageManager.Some?
  {
  }

  /** `updateDeploymentConfig`: every deployment without a package manager has
      its configuration filled in and is saved. */
  method UpdateDeploymentConfig(deployments: seq<Deployment>)
    requires Distinct(deployments)
    modifies deployments`configuration
    ensures forall d :: d in deployments ==> d.configuration == ConfigAfterMigration(old(d.configuration))
    ensures forall d :: d in deployments ==>
      && d.frontend == old(d.frontend) && d.backend == old(d.backend) && d.database == old(d.database)
      && d.status == old(d.status) && d.logs == old(d.logs) && d.healthChecks == old(d.healthChecks)
  {
    for i := 0 to |deployments|
      invariant forall j :: 0 <= j < i ==>
        deployments[j].configuration == ConfigAfterMigration(old(deployments[j].configuration))
      invariant forall j :: i <= j < |deployments| ==> deployments[j].configuration == old(deployments[j].configuration)
    {
      var d := deployments[i];
      if d.configuration.packageManager.None? {
        var c := d.configuration;
        d.configuration := Configuration(
          Some(OrDefault(c.buildCommand, "npm run build")),
          Some(OrDefault(c.startCommand, "npm start")),
          Some(OrDefault(c.nodeVersion, "18.x")),
          Some(OrDefault(c.packageManager, "npm")));
      }
    }
  }

  // ---------------------------------------------------------------- dispatch

  /** The entries of the `migrations` object, in declaration order. */
  datatype Migration = AddIndexes | UpdatePreferences | AddChecks | CleanupMetrics | UpdateConfig

  function MigrationName(m: Migration): string {
    match m
    case AddIndexes => "addIndexes"
    case UpdatePreferences => "updateUserPreferences"
    case AddChecks => "addHealthChecks"
    case CleanupMetrics => "cleanupOldMetrics"
    case UpdateConfig => "updateDeploymentConfig"
  }

  /** `migrations[name]`: the migration of that name, if any. */
  function ParseMigration(name: string): (r: Option<Migration>)
    ensures r.Some? ==> MigrationName(r.value) == name
  {
    if name == "addIndexes" then Some(AddIndexes)
    else if name == "updateUserPreferences" then Some(UpdatePreferences)
    else if name == "addHealthChecks" then Some(AddChecks)
    else if name == "cleanupOldMetrics" then Some(CleanupMetrics)
    else if name == "updateDeploymentConfig" then Some(UpdateConfig)
    else None
  }

  /** Every migration is found under its own name. */
  lemma MigrationNameRoundTrip(m: Migration)
    ensures ParseMigration(MigrationName(m)) == Some(m)
  {
  }

  /** `runSpecificMigration`: the named migration runs against the
      collections; an unknown name changes nothing. Index creation changes no
      document. */
  method RunSpecificMigration(name: string, users: seq<User>, deployments: seq<Deployment>,
                              metrics: MetricCollection, r: seq<Draws>, now: Millis) returns (found: bool)
    requires Distinct(users) && Distinct(deployments) && |r| == |deployments|
    requires forall i :: 0 <= i < |r| ==> ValidDraws(r[i])
    modifies users`preferences, deployments`healthChecks, deployments`configuration, metrics
    ensures found <==> ParseMigration(name).Some?
    ensures var m := ParseMigration(name);
      forall u :: u in users ==>
        u.preferences == if m == Some(UpdatePreferences) then WithDefaultPreferences(old(u.preferences)) else old(u.preferences)
    ensures forall i :: 0 <= i < |deployments| ==>
      var d := deployments[i];
      d.healthChecks == if ParseMigration(name) == Some(AddChecks)
        then ChecksAfterMigration(old(d.healthChecks), d.frontend.status, d.backend.status, d.database.status, r[i], now)
        else old(d.healthChecks)
    ensures var m := ParseMigration(name);
      forall d :: d in deployments ==>
        d.configuration == if m == Some(UpdateConfig) then ConfigAfterMigration(old(d.configuration)) else old(d.configuration)
    ensures metrics.samples ==
      if ParseMigration(name) == Some(CleanupMetrics) then Expire(old(metrics.samples), now)
      else old(metrics.samples)
  {
    var m := ParseMigration(name);
    found := m.Some?;
    if m == Some(UpdatePreferences) {
      UpdateUserPreferences(users);
    } else if m == Some(AddChecks) {
      AddHealthChecks(deployments, r, now);
    } else if m == Some(CleanupMetrics) {
      var _ := CleanupOldMetrics(metrics, now);
    } else if m == Some(UpdateConfig) {
      UpdateDeploymentConfig(deployments);
    }
  }

  /** `runMigrations`: every migration once, in declaration order. */
  method RunMigrations(users: seq<User>, deployments: seq<Deployment>, metrics: MetricCollection,
                       r: seq<Draws>, now: Millis)
    requires Distinct(users) && Distinct(deployments) && |r| == |deployments|
    requires forall i :: 0 <= i < |r| ==> ValidDraws(r[i])
    modifies users`preferences, deployments`healthChecks, deployments`configuration, metrics
    ensures forall u :: u in users ==> u.preferences == WithDefaultPreferences(old(u.preferences))
    ensures forall i :: 0 <= i < |deployments| ==>
      var d := deployments[i];
      d.healthChecks == ChecksAfterMigration(old(d.healthChecks), d.frontend.status, d.backend.status,
                                             d.database.status, r[i], now)
    ensures forall d :: d in deployments ==> d.configuration == ConfigAfterMigration(old(d.configuration))
    ensures metrics.samples == Expire(old(metrics.samples), now)
  {
    UpdateUserPreferences(users);
    AddHealthChecks(deployments, r, now);
    var _ := CleanupOldMetrics(metrics, now);
    UpdateDeploymentConfig(deployments);
  }
}
