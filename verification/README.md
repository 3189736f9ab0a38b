# Deployment tracker core, modelled in Dafny

The system is the backend of a MERN deployment dashboard. It has four parts:

- **Deployments.** A deployment tracks three services: a frontend, a backend and a database. Each service has its own status. The deployment's overall status is derived from those three. Each deployment also keeps a log capped at the newest 100 entries and a list of health checks that every probe cycle replaces.
- **Metrics.** Metric samples are drawn from fixed type, unit and service vocabularies. The backend answers window queries (1h, 24h, 7d, 30d) with results newest first. It aggregates samples into buckets keyed by (type, service, interval) and compares the newest sample with the midpoint sample to report a trend. Samples expire after 30 days.
- **Users and login.** Users carry a login lockout: an attempt counter plus an optional lock expiry. Five failures lock the account for two hours. The login route checks that the user exists, then the lock, then the password.
- **Health and maintenance.** Health endpoints escalate a status from OK through WARNING to ERROR and never lower it. Maintenance migrations fill in missing defaults, seed health checks and sweep away old samples.

## Layout

Each file below is one Dafny module.

- **common.dfy** (`Common`):
  - identifiers, clock readings and `Option`;
  - JavaScript's `Math.round`;
  - order-preserving `Filter` and its lemmas;
  - `slice(-n)`, `reverse`;
  - the `Math.random` range helper.
- **deployment_model.dfy** (`DeploymentModel`):
  - the status vocabulary and the derivation rule;
  - the `health` score and the capped log;
  - the probe result;
  - the `Deployment` class, whose methods update its fields in place.
- **metric_model.dfy** (`MetricModel`):
  - the metric vocabularies and time ranges;
  - `find` and the newest-first sort;
  - the expiry sweep;
  - the single-group summary and the trend;
  - the `MetricCollection` class.
- **user_model.dfy** (`UserModel`): the lockout state machine and the `User` class.
- **metrics_routes.dfy** (`MetricsRoutes`): the metric routes, namely
  - validation;
  - lookup and ownership;
  - the windowed query;
  - bucketed aggregation;
  - trends;
  - sample creation.
- **deployments_routes.dfy** (`DeploymentsRoutes`): pagination, the logs view, the deploy trigger and its simulated continuation, and the delete cascade.
- **auth_routes.dfy** (`AuthRoutes`): the login decision sequence.
- **health_routes.dfy** (`HealthRoutes`): the basic and detailed severity escalation and readiness.
- **migrate.dfy** (`Migrate`): the migrations and their dispatch.

Several things arrive as parameters rather than being computed:

- Time is an integer count of milliseconds (`now`).
- Network probe outcomes arrive as a function.
- Process and OS readings (memory percentage, load average, CPU count) are plain inputs.
- Every `Math.random()` draw is a real in [0, 1).
- The verdict of the password comparison is a boolean.

## Model

| member | source | states |
|---|---|---|
| Common.RoundHalfUp | backend/models/Deployment.js:195 | `Math.round` returns the integer within half a unit of its argument, with ties going up. |
| Common.Round2 | backend/models/Metric.js:135 | The result is a whole number of hundredths within (−0.005, +0.005] of the argument, which fixes it uniquely: rounding to two decimals with ties going up. |
| Common.RandomInt | backend/routes/deployments.js:289 | `Math.floor(Math.random()*span)+base` lies in [base, base+span). |
| Common.NewestN | backend/routes/deployments.js:363-368 | `slice(-n)` followed by `reverse()` gives the last min(n, length) elements, most recent first. |
| DeploymentModel.ParseServiceName | backend/models/Deployment.js:226 | Exactly "frontend", "backend" and "database" name a service. |
| DeploymentModel.DeriveOverall | backend/models/Deployment.js:241-253 | Any failed service gives `failed`. Frontend and backend `deployed` with the database `connected` gives `deployed`. Otherwise frontend or backend `building` gives `building`, and everything else gives `pending`. Each outcome is stated as an iff over the three statuses. The result is always a value of the overall enum and never `cancelled`. |
| DeploymentModel.HealthyCount | backend/models/Deployment.js:189-193 | The tally is at most 3. It is 3 iff all three services are up, and 0 iff none is. |
| DeploymentModel.HealthScore | backend/models/Deployment.js:186-196 | The score is round(100·k/3) for k healthy services: 0 iff none, 33 for one, 67 for two, and 100 iff the derived status is `deployed`. |
| DeploymentModel.Logged | backend/models/Deployment.js:207-220 | After an append, the log holds min(n+1, 100) entries, ends with the new entry and is the matching suffix of old log plus the new entry. |
| DeploymentModel.CapThenAppend | backend/models/Deployment.js:216-219 | Capping before an append and capping after it give the same log. |
| DeploymentModel.LoggedAllKeepsNewest | backend/models/Deployment.js:207-220 | Any number of single appends leaves exactly the newest 100 of everything appended, in order. |
| DeploymentModel.CapThenAppendMany | backend/models/Deployment.js:216-219 | Capping once before a batch of appends does not change the final capped log. |
| DeploymentModel.OneHundredFiftyAppends | backend/models/Deployment.js:216-219 | 150 appends to an empty log leave entries 50..149. |
| DeploymentModel.ProbeResult | backend/models/Deployment.js:262-282 | A probe is `healthy` iff it got a 2xx response within the 5000 ms timeout; it then carries the elapsed time and uptime 100. Every failure is `unhealthy` with responseTime 0 and uptime 0. |
| DeploymentModel.Deployment.constructor | backend/models/Deployment.js:36-49 | A new deployment starts with every status `pending`, no logs and no health checks. |
| DeploymentModel.Deployment.Health | backend/models/Deployment.js:186-196 | The mutable tally equals `HealthScore` of the three statuses. |
| DeploymentModel.Deployment.AddLog | backend/models/Deployment.js:207-222 | The new log is `Logged(old log, entry stamped now)`, and the 100-entry bound is kept. |
| DeploymentModel.Deployment.UpdateOverallStatus | backend/models/Deployment.js:241-253 | The status becomes `DeriveOverall` of the three services. |
| DeploymentModel.Deployment.UpdateServiceStatus | backend/models/Deployment.js:225-238 | An unknown name reports failure and changes no service and no status. A known name updates that service only, leaves the other two unchanged and re-derives the status. |
| DeploymentModel.Deployment.PerformHealthCheck | backend/models/Deployment.js:256-312 | The list is replaced wholesale. It holds one entry per set url, Frontend first, then Backend probing `url + "/api/health"`. The deployment status is unchanged. |
| DeploymentModel.Updated | backend/models/Deployment.js:227-230 | The service gets the new status and `lastDeployment = now`. Present extra fields overwrite, and absent ones keep the stored value. |
| MetricModel.ParseMetricType | backend/models/Metric.js:10-24 | A string is accepted iff it names one of the ten types, and the parse inverts the naming. |
| MetricModel.MetricTypeRoundTrip | backend/models/Metric.js:10-24 | Every type parses back from its own name. |
| MetricModel.ParseUnit | backend/models/Metric.js:30-34 | Exactly the seven unit names are accepted. |
| MetricModel.UnitRoundTrip | backend/models/Metric.js:30-34 | Every unit parses back from its own name. |
| MetricModel.ParseMetricService | backend/models/Metric.js:40-44 | Exactly the four service names are accepted. |
| MetricModel.ParseTimeRange | backend/models/Metric.js:69-74 | Exactly "1h", "24h", "7d" and "30d" are accepted. |
| MetricModel.WindowsNested | backend/models/Metric.js:69-74 | The window lengths are 3 600 000, 86 400 000, 604 800 000 and 2 592 000 000 ms. They are strictly nested, and none exceeds the 30-day retention. |
| MetricModel.Find | backend/models/Metric.js:78-81 | `find` keeps every sample that matches the filter with its full multiplicity, and nothing else. |
| MetricModel.FindSnoc | backend/models/Metric.js:78-81 | Storing one more sample extends the result by that sample iff it matches. |
| MetricModel.FindLastIsLastMatch | backend/models/Metric.js:110 | The last sample found is the last matching sample in stored order. |
| MetricModel.InsertNewestFirst | backend/models/Metric.js:81 | Insertion adds exactly the inserted sample, which lands at the front or behind the old first sample. |
| MetricModel.InsertKeepsNewestFirst | backend/models/Metric.js:81 | Insertion keeps a newest-first sequence newest first. |
| MetricModel.SortNewestFirst | backend/models/Metric.js:81 | `sort({timestamp:-1})` yields a newest-first permutation of its input. |
| MetricModel.GetMetricsForDeployment | backend/models/Metric.js:68-82 | The result is newest first and holds exactly the deployment's samples with timestamp ≥ now − window, each with its multiplicity. |
| MetricModel.Expire | backend/models/Metric.js:64-65 | The TTL sweep keeps exactly the samples no older than 30 days. |
| MetricModel.ExpireKeepsWindows | backend/models/Metric.js:64-74 | The sweep never changes the answer to a query whose window lies inside the retention period. |
| MetricModel.MinOf | backend/models/Metric.js:107 | `$min` is a member of the group and bounds every value from below. |
| MetricModel.MaxOf | backend/models/Metric.js:108 | `$max` is a member of the group and bounds every value from above. |
| MetricModel.SumAtLeast | backend/models/Metric.js:106 | A lower bound on every value bounds the sum by count × bound. |
| MetricModel.SumAtMost | backend/models/Metric.js:106 | An upper bound on every value bounds the sum by count × bound. |
| MetricModel.Summarize | backend/models/Metric.js:104-111 | count is the group size and latest is the last value. min and max are members that bound every value, min ≤ avg ≤ max, and a one-value group has avg = min = max = latest. |
| MetricModel.SummaryAvgIsMean | backend/models/Metric.js:106 | `$avg` is the arithmetic mean: the total of the group's values over their number. |
| MetricModel.TwoValueSummary | backend/models/Metric.js:104-111 | Values 10 and 20 give avg 15, min 10, max 20, count 2 and latest 20. |
| MetricModel.GetAggregatedMetrics | backend/models/Metric.js:85-114 | There is no summary iff nothing matches. Otherwise there is one summary, the group summary of the matched values: its count is the match size, its latest the last match in the order the model feeds `$group` (stored order), its min and max are attained and bound every matched value, and its avg is their mean. |
| MetricModel.TrendBetween | backend/models/Metric.js:128-135 | The trend is `up` iff latest > 105 % of previous and `down` iff latest < 95 % of it, with the sense flipped when previous is negative; anything within ±5 % is `stable`. A zero previous gives a non-finite change. The reported change is (latest−previous)/previous·100 rounded to two decimals. |
| MetricModel.RelativeChange | backend/models/Metric.js:128-133 | Comparing the percentage change with ±5 is the same as comparing latest with 105 % and 95 % of previous. |
| MetricModel.FilterNewestFirst | backend/models/Metric.js:119 | Filtering a newest-first list keeps it newest first. |
| MetricModel.OfKind | backend/models/Metric.js:119 | The type filter keeps exactly the samples of that type, still newest first. |
| MetricModel.CalculateTrend | backend/models/Metric.js:117-136 | Fewer than two samples of the type gives `stable` with change 0. Otherwise the newest sample is compared with the sample at index ⌊n/2⌋ of the newest-first list, which is no newer than it. |
| MetricModel.TwentyPercentRise | backend/models/Metric.js:128-135 | 120 against 100 is reported as `up` with change 20. |
| MetricModel.MetricCollection.Create | backend/routes/metrics.js:244-247 | The sample is appended to the collection. |
| MetricModel.MetricCollection.DeleteForDeployment | backend/routes/deployments.js:242 | Exactly the deployment's samples go. The others stay in order, and the deleted count is returned. |
| MetricModel.MetricCollection.DeleteOlderThan | backend/scripts/migrate.js:133 | Exactly the samples stamped before the cutoff go. The others stay in order, and the deleted count is returned. |
| UserModel.AfterFailure | backend/models/User.js:164-179 | An expired lock (strictly in the past) is cleared and the counter is set to 1. Otherwise the counter goes up by exactly one, and a lock in force is neither extended nor lifted. With no lock, the failure that reaches 5 sets a lock for now + 2 h. |
| UserModel.AfterFailureKeepsConsistent | backend/models/User.js:172-176 | A lock only ever exists alongside at least five counted failures. |
| UserModel.FewFailuresNoLock | backend/models/User.js:172-176 | On a fresh account, fewer than five failures only count. |
| UserModel.FailuresCount | backend/models/User.js:172 | Failures that stay below the limit add exactly one each. |
| UserModel.FifthFailureLocks | backend/models/User.js:172-176 | On a fresh account the 5th failure is the first to set a lock, for two hours from that failure. |
| UserModel.FailuresSnoc | backend/models/User.js:164-179 | A run of failures followed by one more is one more failure step. |
| UserModel.LockBoundary | backend/models/User.js:165 | When `lockUntil == now` the lock is neither in force nor expired, so a failure increments the counter and keeps the lock. |
| UserModel.User.constructor | backend/models/User.js:26-73 | A new user has the schema defaults: 0 attempts, no lock, no last login and the default preferences. |
| UserModel.User.IncLoginAttempts | backend/models/User.js:164-179 | The stored lockout state becomes `AfterFailure(old state, now)`. |
| UserModel.User.ResetLoginAttempts | backend/routes/auth.js:117-121 | `$unset` of the counter and the lock leaves no failures and no lock. |
| AuthRoutes.LoginStep | backend/routes/auth.js:98-125 | A lock in force gives 423 and changes nothing. A wrong password gives 401 after exactly one `incLoginAttempts`. The right password gives 200, clears a positive counter and stamps `lastLogin`. 200 is answered iff the account is unlocked and the password is right. |
| AuthRoutes.LockBeforePassword | backend/routes/auth.js:98-108 | While locked, the right and the wrong password get the same answer and leave the same state. |
| AuthRoutes.LoginKeepsConsistent | backend/routes/auth.js:98-121 | Logins keep the lockout state consistent, and a successful login leaves no lock. |
| AuthRoutes.WrongLoginsAreFailures | backend/routes/auth.js:106-114 | Up to five wrong-password logins on an unlocked account are plain failures. |
| AuthRoutes.BruteForceLocksOut | backend/routes/auth.js:98-114 | After five wrong passwords on a fresh account, even the right password gets 423 and changes nothing for two hours. |
| AuthRoutes.Login | backend/routes/auth.js:88-125 | An unknown email gives 401 and touches nothing. Otherwise the code, the new lockout state and `lastLogin` follow `LoginStep`, and role and preferences are unchanged. |
| HealthRoutes.Worse | backend/routes/health.js:62 | The more severe of two levels is one of them and at least as severe as both. |
| HealthRoutes.RaiseIsWorse | backend/routes/health.js:62 | "Set to level only if OK" is the same as taking the more severe level, so the status never goes down. |
| HealthRoutes.StatusCode | backend/routes/health.js:65 | OK and WARNING map to 200, and ERROR maps to 503. |
| HealthRoutes.BasicStatusCases | backend/routes/health.js:38-63 | ERROR iff the database is not ready or the ping throws. WARNING iff the database is fine and memory is above 90 %. OK otherwise. |
| HealthRoutes.BasicHealth | backend/routes/health.js:38-69 | The report built step by step has the database and memory verdicts and the overall status of `BasicStatusCases`. Its code is `StatusCode`, and success holds iff the status is not ERROR. |
| HealthRoutes.DetailedStatusCases | backend/routes/health.js:124-166 | ERROR iff the database fails or memory is above 90 %. WARNING iff neither holds but memory is above 75 % or load/cpus is above 0.8. OK otherwise. |
| HealthRoutes.DetailedHealth | backend/routes/health.js:124-173 | The step-by-step report has the database, memory (OK, WARNING or CRITICAL) and CPU verdicts, the overall status of `DetailedStatusCases`, its code, and success iff the status is not ERROR. |
| HealthRoutes.Readiness | backend/routes/health.js:192-219 | Ready iff both checks pass, which happens iff the ping answered. A ping that throws answers 503 with both checks false. The code is 200 iff ready. |
| DeploymentsRoutes.PageCount | backend/routes/deployments.js:58 | `Math.ceil(total/limit)` is the fewest pages of `limit` items that hold `total` items. |
| DeploymentsRoutes.Paginate | backend/routes/deployments.js:17-58 | page < 1 or limit outside 1..100 fails validation. The defaults are page 1 and limit 10. The page holds the items from (page−1)·limit on, at most `limit` of them, with total and pages reported. |
| DeploymentsRoutes.ItemOnItsPage | backend/routes/deployments.js:32-46 | Item i of the listing is item i mod limit of page ⌊i/limit⌋+1, which is never past the last page. |
| DeploymentsRoutes.PageOfIndex | backend/routes/deployments.js:34 | No other page holds index i. |
| DeploymentsRoutes.ParseLogLevel | backend/routes/deployments.js:325 | Exactly "info", "warn", "error" and "debug" are levels. |
| DeploymentsRoutes.LogLevelName | backend/routes/deployments.js:325 | Every level parses back from its own name. |
| DeploymentsRoutes.LogsView | backend/routes/deployments.js:324-368 | limit outside 1..1000 or an unknown level fails validation; every other request is answered with the query for its level (all levels when none is given) and its limit (100 by default). |
| DeploymentsRoutes.NewestOfLevel | backend/routes/deployments.js:357-368 | The answer holds the last min(limit, matches) entries of the level, most recent first, and every one of them has that level. |
| DeploymentsRoutes.LogsViewNewestFirst | backend/routes/deployments.js:357-368 | The first entry of the view is the newest entry of the requested level. |
| DeploymentsRoutes.TriggerDeploy | backend/routes/deployments.js:276-280 | The status becomes `building`, then "Deployment triggered" is logged. |
| DeploymentsRoutes.SimulateDeploy | backend/routes/deployments.js:284-305 | The steps run in order: frontend `deployed` with its Vercel url and a build time in [30 s, 150 s); backend `deployed` with its Render url and a build time in [60 s, 240 s); database `connected`; a closing log entry. Without a fault the status ends `deployed` and health is 100. A fault thrown by the save of step k keeps the in-memory changes of steps 0..k, including step k's own, skips the later steps, sets `failed` and logs the error. |
| DeploymentsRoutes.FrontendExtra | backend/routes/deployments.js:287-290 | The frontend gets its url and a build time in [30 s, 150 s). |
| DeploymentsRoutes.BackendExtra | backend/routes/deployments.js:292-295 | The backend gets its url and a build time in [60 s, 240 s). |
| DeploymentsRoutes.RunDeploySteps | backend/routes/deployments.js:285-299 | The `try` block up to the first throw: each step reached updates its service, and only a run of all three steps logs the closing entry and leaves the status `deployed`. |
| DeploymentsRoutes.RecordFailure | backend/routes/deployments.js:300-303 | The `catch` block: the status becomes `failed` and "Deployment failed: " followed by the message is logged. |
| DeploymentsRoutes.DeployLogsEnd | backend/routes/deployments.js:298-303 | The log of a simulated deployment stays capped and ends with the closing entry when nothing threw, or with the error entry when a step threw. |
| DeploymentsRoutes.Store.DeleteDeployment | backend/routes/deployments.js:222-242 | An unknown id gives 404 and a requester who is neither owner nor admin gives 403; both change nothing. Otherwise the deployment is removed and so is every sample naming it. |
| DeploymentsRoutes.CascadeLeavesNoOrphans | backend/routes/deployments.js:239-242 | After the cascade, no query for the deleted deployment finds anything, and queries for other deployments are unaffected. |
| MetricsRoutes.Guard | backend/routes/metrics.js:51-64 | 404 iff the deployment is unknown, 403 iff the requester is neither owner nor admin, the body otherwise. |
| MetricsRoutes.RangeOrDefault | backend/routes/metrics.js:17-48 | A missing timeRange is `24h`, and a given one must be one of the four names. |
| MetricsRoutes.GetMetrics | backend/routes/metrics.js:17-89 | Validation fails iff a parameter is outside its enum. Access failures come next. On success the metrics are newest first, `count` is their number, and they are exactly the stored samples matching the deployment, the optional type and service, and the window. |
| MetricsRoutes.ParseGroupBy | backend/routes/metrics.js:106-119 | A missing groupBy is `hour`, and a given one must be hour, day or week. |
| MetricsRoutes.IntervalMonotone | backend/routes/metrics.js:148-152 | Later samples never fall in an earlier interval. |
| MetricsRoutes.TwoOccurrences | backend/routes/metrics.js:162-167 | A key at two positions occurs at least twice, so duplicate-free key lists have distinct entries. |
| MetricsRoutes.DistinctKeys | backend/routes/metrics.js:162-167 | Each key of a sample appears once, and every key listed belongs to some sample. |
| MetricsRoutes.InsertByInterval | backend/routes/metrics.js:176 | Insertion adds exactly the inserted key, which lands at the front or behind the old first key. |
| MetricsRoutes.InsertKeepsAscending | backend/routes/metrics.js:176 | Insertion keeps keys ascending by interval. |
| MetricsRoutes.SortByInterval | backend/routes/metrics.js:176 | `$sort` on the interval yields an ascending permutation of the keys. |
| MetricsRoutes.BucketKeys | backend/routes/metrics.js:162-177 | The bucket keys are ascending by interval and duplicate-free, and they cover exactly the keys of the samples. |
| MetricsRoutes.GroupNonEmpty | backend/routes/metrics.js:162-167 | A key carried by some sample has a non-empty group. |
| MetricsRoutes.BucketsFor | backend/routes/metrics.js:161-173 | There is one bucket per key, in key order. |
| MetricsRoutes.BucketAt | backend/routes/metrics.js:161-173 | Each bucket is the summary of the non-empty group of samples carrying its key. |
| MetricsRoutes.SumCountsIsGroupSizes | backend/routes/metrics.js:171 | The bucket counts add up to the group sizes. |
| MetricsRoutes.GroupSizesCons | backend/routes/metrics.js:162-167 | One more sample adds one to the group of its own key only. |
| MetricsRoutes.GroupSizesEmpty | backend/routes/metrics.js:162-167 | With no samples, every group is empty. |
| MetricsRoutes.GroupsPartition | backend/routes/metrics.js:162-167 | With distinct keys covering every sample, the groups partition the samples. |
| MetricsRoutes.AggregateBuckets | backend/routes/metrics.js:154-177 | The buckets come out in ascending interval order with distinct keys, and every matched sample has the bucket of its key. |
| MetricsRoutes.AggregateSummaries | backend/routes/metrics.js:161-173 | Each bucket summarises its group: count, latest as the last of the group in the order the model feeds `$group` (stored order), min ≤ avg ≤ max, and min/max bounding every value of the group. |
| MetricsRoutes.BucketSummaries | backend/routes/metrics.js:168-172 | Every bucket built for covered keys summarises its group. |
| MetricsRoutes.SummaryOfGroup | backend/routes/metrics.js:168-172 | The summary of one group bounds every value of that group. |
| MetricsRoutes.AggregateCountsAddUp | backend/routes/metrics.js:161-171 | The bucket counts sum to the number of matched samples. |
| MetricsRoutes.GetAggregated | backend/routes/metrics.js:102-187 | Validation fails iff the time range or groupBy is invalid. Past validation, an unknown deployment is 404 and only that, and a requester who is neither owner nor admin is 403 and only that. On success the requester has access, the defaults are applied, and the buckets are the pipeline over the deployment's samples in the window. |
| MetricsRoutes.GetTrend | backend/routes/metrics.js:266-323 | A missing or unknown type or an unknown range fails validation. Past validation, an unknown deployment is 404 and only that, and a requester who is neither owner nor admin is 403 and only that. On success the requester has access and the trend is `CalculateTrend` of the type over the window (default 24h). |
| MetricsRoutes.BodyErrors | backend/routes/metrics.js:198-214 | Each field error occurs iff its rule is broken: type in the ten kinds, value numeric, unit in the seven units, and service (if given) in the four services. |
| MetricsRoutes.NewSampleAsWritten | backend/routes/metrics.js:244-247 | As written, a `deployment` in the body replaces the route's id. |
| MetricsRoutes.BodyOverridesRouteDeployment | backend/routes/metrics.js:229-247 | A requester cleared for deployment 1 files a valid sample under deployment 2. |
| MetricsRoutes.NewSample | backend/routes/metrics.js:244-247 | The stored sample is filed under the checked route id and carries the parsed fields. The service defaults to `overall` and the timestamp to now. |
| MetricsRoutes.CreateMetric | backend/routes/metrics.js:216-249 | 400 iff the body is invalid, then 404/403 by lookup and ownership, else 201 with exactly one sample appended. Nothing changes on an error. |
| Migrate.WithDefaultPreferences | backend/scripts/migrate.js:56-67 | A user without preferences gets the defaults, and stored preferences are kept. |
| Migrate.PreferencesIdempotent | backend/scripts/migrate.js:56 | A second run changes nothing. |
| Migrate.UpdateUserPreferences | backend/scripts/migrate.js:52-75 | Every user's preferences become `WithDefaultPreferences` of the old ones, and the lockout state, role and last login are untouched. |
| Migrate.EntryIf | backend/scripts/migrate.js:87-115 | A running service gives one healthy entry stamped now, with its uptime and a response time in [base, base+span). Otherwise it gives none. |
| Migrate.InitialChecks | backend/scripts/migrate.js:85-115 | There is one entry per running service, each healthy and stamped now. |
| Migrate.InitialChecksPerService | backend/scripts/migrate.js:87-115 | There is a Frontend, Backend or MongoDB entry iff that service is deployed or connected. Response times lie in [100,300), [150,450) and [50,150), with uptimes 99.9, 99.8 and 99.99. |
| Migrate.ChecksAfterMigration | backend/scripts/migrate.js:82-117 | Only an empty list is replaced, and a non-empty one is kept. |
| Migrate.NothingRunningNoChecks | backend/scripts/migrate.js:82-117 | A deployment with nothing running stays empty and so stays selected. |
| Migrate.AddHealthChecks | backend/scripts/migrate.js:78-125 | Each deployment's list becomes `ChecksAfterMigration` of the old list, and statuses, logs and configuration are untouched. |
| Migrate.CleanupOldMetrics | backend/scripts/migrate.js:128-139 | Exactly the samples older than 30 days are deleted. The rest stay in order, and the deleted count is returned. |
| Migrate.OrDefault | backend/scripts/migrate.js:155-158 | A missing or empty value takes the fallback, and any other value is kept. |
| Migrate.FilledConfiguration | backend/scripts/migrate.js:153-159 | The four fields keep non-empty values and otherwise take "npm run build", "npm start", "18.x" and "npm". |
| Migrate.ConfigAfterMigration | backend/scripts/migrate.js:146-159 | Only a configuration lacking `packageManager` is rewritten. |
| Migrate.ConfigMigrationFacts | backend/scripts/migrate.js:146-159 | After the rewrite every field is non-empty, the package manager is "npm", and non-empty stored values survive. |
| Migrate.ConfigMigrationIdempotent | backend/scripts/migrate.js:146 | A second run selects nothing and changes nothing. |
| Migrate.UpdateDeploymentConfig | backend/scripts/migrate.js:142-168 | Each configuration becomes `ConfigAfterMigration` of the old one, and services, status, logs and health checks are untouched. |
| Migrate.ParseMigration | backend/scripts/migrate.js:191 | A name is found only for the migration carrying exactly that name. |
| Migrate.MigrationNameRoundTrip | backend/scripts/migrate.js:24-169 | Every migration is found under its own name. |
| Migrate.RunSpecificMigration | backend/scripts/migrate.js:188-201 | It reports found iff the name is a migration. Exactly that migration's effect happens, and an unknown name changes nothing. |
| Migrate.RunMigrations | backend/scripts/migrate.js:172-185 | All migrations run once, in declaration order, with their combined effect on users, deployments and samples. |

## Left out

- The network probes, bcrypt, JWT issuing and checking, express wiring and middleware (rate limiting, CORS, helmet) are not modelled. Probe outcomes and the password verdict are parameters.
- Each request reads the clock once, as the parameter `now`. The milliseconds between successive `Date.now()` calls within one request are not modelled.
- The Mongo TTL index runs in the background. It is modelled as an explicit sweep (`Expire`) at a given instant.
- Aggregation buckets are keyed by `timestamp / width` (hour, day, week since the epoch) instead of the `$dateToString` strings. `%U` weeks really start on Sunday and restart their numbering every 1 January, so a week spanning New Year becomes two buckets; neither effect nor the string order of the keys is modelled. Only monotonicity is proved (`IntervalMonotone`).
- The model's `ServiceState` holds one shape for all three services: status, url, build time and last deployment, the fields the core writes. The frontend and backend sub-schemas declare these fields; the database sub-schema declares status, provider, connection string and `lastConnection` instead.
- `DeploymentModel.Updated` stamps `lastDeployment` on the database too, as `updateServiceStatus` assigns it to any service. The database sub-schema declares only status, provider, connection string and `lastConnection`, so under Mongoose's strict mode that stamp is not persisted; the model keeps it. The platform fields, the `deploymentDuration` virtual, environment variables and the `metadata` of log entries are not modelled.
- The field-format validators of login (email format, non-empty password) are not modelled. Neither is the login handler's `catch`, which answers 401 "Invalid credentials" when a lookup or save throws.
- When `timeRange` is absent on the internal `calculateTrend` path, the window is always the 24h default. The `NaN` start time of an unknown range cannot arise, because routes validate the range first.
- Dispatching by `migrations[name]` in JavaScript would also find inherited object properties such as `toString`. Only the five declared names are modelled.
- `DeploymentModel.Deployment.UpdateServiceStatus`: the same holds for `this.services[service]`. An inherited name such as `constructor` is truthy there, so it does not throw and the overall status is re-derived; the model recognises only the three service names.
- `addIndexes` is modelled as a migration that changes no document. Index creation itself is not modelled.
- `DeploymentsRoutes.SimulateDeploy` runs immediately: the 5-second `setTimeout` is not modelled. The real callback later saves the document copy loaded by the trigger request, so updates made to the deployment in between are overwritten or lost. The model does not capture that interleaving.
- A persistence failure (`save()` rejecting) is modelled only in the simulated deploy sequence, as the `Fault` parameter. Elsewhere saves succeed.
- The `try`/`catch` blocks of the migrations, which log and swallow errors, are not modelled.
- The listing's `status` and `environment` filters and its `createdAt` sort are not modelled. `Paginate` receives the already-filtered, sorted list.
- The create, update and get-single routes for deployments are outside this model. So is the POST health-check route wrapper around `performHealthCheck`, whose follow-up log entry is an ordinary `AddLog`.
- The lookup and ownership checks of the deploy and logs routes are not repeated. They are the same check as `MetricsRoutes.Guard` and `DeleteDeployment`.
- The following are not part of this model:
  - `backend/routes/users.js`;
  - the seed script;
  - the UI components;
  - the `/api/metrics/system/current` and `/api/health/live` routes, which only report process readings;
  - console logging.
- Every `Math.random()` draw is an explicit real in [0, 1): `Draws` for the migration, and `r1`/`r2` for the deploy simulation.
- `Migrate.UpdateUserPreferences`, `Migrate.AddHealthChecks`, `Migrate.UpdateDeploymentConfig`, `Migrate.RunSpecificMigration` and `Migrate.RunMigrations` require each document to occur once in its collection (`Distinct`), as a database query returns it.
- `MetricModel.TrendBetween`: a zero reference value is modelled with JavaScript's division (±Infinity classified up or down, NaN stable) rather than excluded. Its contract states only that such a change is not finite.
- `MetricModel.Summarize`: real arithmetic replaces IEEE doubles, so averages and the two-decimal rounding are exact.
- `HealthRoutes.DetailedHealth`: load divided by zero CPUs follows JavaScript (Infinity exceeds 0.8, NaN does not).
- `MetricModel.GetAggregatedMetrics` and `MetricsRoutes.AggregateSummaries`: neither pipeline sorts before `$group`, so the order in which documents reach it, and hence which sample `$last` reports as `latest`, is left to the database. A `$match` served through the `{deployment: 1, timestamp: -1}` index would deliver newest first, and a posted body may carry its own `timestamp`, so neither stored nor chronological order is guaranteed. The model feeds `$group` in stored order.
- Sort ties are left in either order, as the database does not fix them.

## Findings

| source | as written | input that shows it | evidently intended | confidence | as-written member | corrected member |
|---|---|---|---|---|---|---|
| backend/routes/metrics.js:244-247 | `Metric.create({ deployment: deploymentId, ...req.body })` spreads the body after the route id, so a `deployment` field in the body replaces the id whose ownership was just checked. | A requester who may access deployment 1 posts `{type: "cpu_usage", value: 50, unit: "percent", deployment: 2}` to `/api/metrics/1`. The sample is stored under deployment 2. | The sample is filed under the checked route id. | not executed | MetricsRoutes.NewSampleAsWritten, MetricsRoutes.BodyOverridesRouteDeployment | MetricsRoutes.NewSample, MetricsRoutes.CreateMetric |
