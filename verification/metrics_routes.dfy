/** The metric routes (backend/routes/metrics.js): the windowed query with
    optional type and service filters, the bucketed aggregation sorted by
    interval, and the creation of a sample from a validated request body. */
module MetricsRoutes {
  import opened Common
  import opened MetricModel
  import opened UserModel

  /** How a route answers: a validation failure, an unknown deployment, a
      refused requester, or a body. */
  datatype Reply<T> = BadRequest | NotFound | Forbidden | Success(body: T)

  /** The lookup and ownership check that follow validation in every route:
      `owner` is the owner of the deployment `findById` found, if any. */
  function Guard<T>(owner: Option<UserId>, requester: UserId, role: Role, body: T): (r: Reply<T>)
    ensures r == NotFound <==> owner.None?
    ensures r == Forbidden <==> owner.Some? && !CanAccess(owner.value, requester, role)
    ensures r == Success(body) <==> owner.Some? && CanAccess(owner.value, requester, role)
  {
    if owner.None? then NotFound
    else if !CanAccess(owner.value, requester, role) then Forbidden
    else Success(body)
  }

  /** The time range a query names, `24h` when it names none. */
  function RangeOrDefault(timeRange: Option<string>): (r: Option<TimeRange>)
    ensures timeRange.None? ==> r == Some(LastDay)
    ensures timeRange.Some? ==> r == ParseTimeRange(timeRange.value)
  {
    if timeRange.None? then Some(DefaultTimeRange) else ParseTimeRange(timeRange.value)
  }

  // ---------------------------------------------------------------- window query

  /** The `data` of GET /api/metrics/:deploymentId. */
  datatype WindowReply = WindowReply(metrics: seq<Sample>, timeRange: TimeRange, count: nat)

  /** The query parameters, as strings when present. */
  datatype WindowParams = WindowParams(timeRange: Option<string>, kind: Option<string>, service: Option<string>)

  predicate ValidWindowParams(p: WindowParams) {
    && RangeOrDefault(p.timeRange).Some?
    && (p.kind.Some? ==> ParseMetricType(p.kind.value).Some?)
    && (p.service.Some? ==> ParseMetricService(p.service.value).Some?)
  }

  /** The `find` filter the handler builds for valid parameters. */
  function WindowQueryOf(deployment: DeploymentId, p: WindowParams, now: Millis): Query
    requires ValidWindowParams(p)
  {
    Query(
      deployment,
      if p.kind.Some? then ParseMetricType(p.kind.value) else None,
      if p.service.Some? then ParseMetricService(p.service.value) else None,
      WindowStart(RangeOrDefault(p.timeRange).value, now))
  }

  /** GET /api/metrics/:deploymentId: validation, then lookup and ownership,
      then exactly the deployment's samples of the requested type and service
      (when given) stamped at or after the window start, newest first, with
      their count. */
  function GetMetrics(store: seq<Sample>, deployment: DeploymentId, owner: Option<UserId>,
                      requester: UserId, role: Role, p: WindowParams, now: Millis): (r: Reply<WindowReply>)
    ensures r == BadRequest <==> !ValidWindowParams(p)
    ensures ValidWindowParams(p) ==>
      (r == NotFound <==> owner.None?) &&
      (r == Forbidden <==> owner.Some? && !CanAccess(owner.value, requester, role))
    ensures r.Success? ==>
      var q := WindowQueryOf(deployment, p, now);
      && r.body.timeRange == RangeOrDefault(p.timeRange).value
      && NewestFirst(r.body.metrics)
      && r.body.count == |r.body.metrics|
      && (forall x :: multiset(r.body.metrics)[x] == if Matches(q, x) then multiset(store)[x] else 0)
  {
    if !ValidWindowParams(p) then BadRequest
    else
      var q := WindowQueryOf(deployment, p, now);
      var ms := SortNewestFirst(Find(store, q));
      Guard(owner, requester, role, WindowReply(ms, RangeOrDefault(p.timeRange).value, |ms|))
  }

  // ---------------------------------------------------------------- aggregation

  datatype GroupBy = Hour | Day | Week

  /** The `groupBy` a query names, `hour` when it names none. */
  function ParseGroupBy(s: Option<string>): (r: Option<GroupBy>)
    ensures s.None? ==> r == Some(Hour)
    ensures s.Some? ==> (r.Some? <==> s.value in {"hour", "day", "week"})
  {
    if s.None? then Some(Hour)
    else if s.value == "hour" then Some(Hour)
    else if s.value == "day" then Some(Day)
    else if s.value == "week" then Some(Week)
    else None
  }

  function BucketWidth(g: GroupBy): nat {
    match g
    case Hour => 60 * 60 * 1000
    case Day => 24 * 60 * 60 * 1000
    case Week => 7 * 24 * 60 * 60 * 1000
  }

  /** The interval a timestamp falls in: the number of whole buckets since
      the epoch, standing in for the formatted date string. */
  function Interval(t: Millis, g: GroupBy): int {
    t / BucketWidth(g)
  }

  /** Later samples never fall in an earlier interval, so ordering by
      interval agrees with ordering by time. */
  lemma IntervalMonotone(t1: Millis, t2: Millis, g: GroupBy)
    requires t1 <= t2
    ensures Interval(t1, g) <= Interval(t2, g)
  {
    var w := BucketWidth(g);
    assert Interval(t1, g) * w <= t1;
    assert t2 < Interval(t2, g) * w + w;
  }

  /** The `$group` key. */
  datatype BucketKey = BucketKey(kind: MetricType, service: MetricService, interval: int)

  function KeyOf(s: Sample, g: GroupBy): BucketKey {
    BucketKey(s.kind, s.service, Interval(s.timestamp, g))
  }

  function HasKey(g: GroupBy, k: BucketKey): Sample -> bool {
    (x: Sample) => KeyOf(x, g) == k
  }

  /** A sequence in which no value occurs twice. */
  ghost predicate NoDuplicates<T(!new)>(s: seq<T>) {
    forall x :: multiset(s)[x] <= 1
  }

  /** A value at two positions occurs at least twice. */
  lemma TwoOccurrences<T>(s: seq<T>, i: int, j: int)
    requires 0 <= i < j < |s| && s[i] == s[j]
    ensures multiset(s)[s[i]] >= 2
  {
    assert s == s[..j] + s[j..];
    assert s[i] == s[..j][i];
    assert s[j] == s[j..][0];
    assert multiset(s)[s[i]] == multiset(s[..j])[s[i]] + multiset(s[j..])[s[i]];
  }

  /** The distinct keys of the samples, in order of first appearance from the end. */
  function DistinctKeys(s: seq<Sample>, g: GroupBy): (keys: seq<BucketKey>)
    ensures NoDuplicates(keys)
    ensures forall x :: x in s ==> KeyOf(x, g) in keys
    ensures forall k :: k in keys ==> exists x :: x in s && KeyOf(x, g) == k
    decreases |s|
  {
    if s == [] then []
    else
      var rest := DistinctKeys(s[1..], g);
      assert forall x :: x in s ==> x == s[0] || x in s[1..];
      assert forall x :: x in s[1..] ==> x in s;
      if KeyOf(s[0], g) in rest then rest
      else [KeyOf(s[0], g)] + rest
  }

  predicate AscendingInterval(keys: seq<BucketKey>) {
    forall i, j :: 0 <= i < j < |keys| ==> keys[i].interval <= keys[j].interval
  }

  /** Insertion of `k` before the first key of no smaller interval. */
  function InsertByInterval(k: BucketKey, keys: seq<BucketKey>): (r: seq<BucketKey>)
    ensures multiset(r) == multiset(keys) + multiset{k}
    ensures |r| == |keys| + 1 && (r[0] == k || (keys != [] && r[0] == keys[0]))
  {
    if keys == [] || k.interval <= keys[0].interval then [k] + keys
    else
      assert keys == [keys[0]] + keys[1..];
      [keys[0]] + InsertByInterval(k, keys[1..])
  }

  /** Insertion into ascending keys keeps them ascending. */
  lemma {:induction false} InsertKeepsAscending(k: BucketKey, keys: seq<BucketKey>)
    requires AscendingInterval(keys)
    ensures AscendingInterval(InsertByInterval(k, keys))
    decreases |keys|
  {
    if keys != [] && k.interval > keys[0].interval {
      var rest := InsertByInterval(k, keys[1..]);
      InsertKeepsAscending(k, keys[1..]);
      assert keys[0].interval <= rest[0].interval;
      assert InsertByInterval(k, keys) == [keys[0]] + rest;
    }
  }

  /** `$sort: { "_id.interval": 1 }` on the keys: ascending interval, ties in
      either order. */
  function SortByInterval(keys: seq<BucketKey>): (r: seq<BucketKey>)
    ensures AscendingInterval(r)
    ensures multiset(r) == multiset(keys)
  {
    if keys == [] then []
    else
      assert keys == [keys[0]] + keys[1..];
      var rest := SortByInterval(keys[1..]);
      InsertKeepsAscending(keys[0], rest);
      InsertByInterval(keys[0], rest)
  }

  /** The bucket keys in output order: one per key present among the samples,
      ascending by interval. */
  function BucketKeys(s: seq<Sample>, g: GroupBy): (keys: seq<BucketKey>)
    ensures AscendingInterval(keys) && NoDuplicates(keys)
    ensures forall x :: x in s ==> KeyOf(x, g) in keys
    ensures forall k :: k in keys ==> exists x :: x in s && KeyOf(x, g) == k
  {
    var d := DistinctKeys(s, g);
    var keys := SortByInterval(d);
    assert forall k :: k in keys ==> k in d by {
      forall k | k in keys ensures k in d {
        assert k in multiset(keys);
      }
    }
    assert forall k :: k in d ==> k in keys by {
      forall k | k in d ensures k in keys {
        assert k in multiset(d);
      }
    }
    keys
  }

  /** A group has a member whenever some sample carries its key. */
  lemma GroupNonEmpty(s: seq<Sample>, g: GroupBy, k: BucketKey)
    requires exists x :: x in s && KeyOf(x, g) == k
    ensures Filter(s, HasKey(g, k)) != []
  {
    var x :| x in s && KeyOf(x, g) == k;
    FilterMultiset(s, HasKey(g, k));
    assert multiset(Filter(s, HasKey(g, k)))[x] == multiset(s)[x];
  }

  /** One aggregated bucket. */
  datatype Bucket = Bucket(key: BucketKey, summary: Summary)

  /** The bucket of each key, in the order of the keys: the summary of the
      samples carrying that key, in stored order (see `BucketAt`). */
  function BucketsFor(s: seq<Sample>, g: GroupBy, keys: seq<BucketKey>): (b: seq<Bucket>)
    requires forall k :: k in keys ==> exists x :: x in s && KeyOf(x, g) == k
    ensures |b| == |keys|
    ensures forall i :: 0 <= i < |b| ==> b[i].key == keys[i]
  {
    if keys == [] then []
    else
      assert keys[0] in keys;
      assert forall k :: k in keys[1..] ==> k in keys;
      GroupNonEmpty(s, g, keys[0]);
      [Bucket(keys[0], Summarize(Values(Filter(s, HasKey(g, keys[0])))))] + BucketsFor(s, g, keys[1..])
  }

  /** Bucket `i` summarises the non-empty group of samples carrying key `i`. */
  lemma {:induction false} BucketAt(s: seq<Sample>, g: GroupBy, keys: seq<BucketKey>, i: nat)
    requires forall k :: k in keys ==> exists x :: x in s && KeyOf(x, g) == k
    requires i < |keys|
    ensures Filter(s, HasKey(g, keys[i])) != []
    ensures BucketsFor(s, g, keys)[i] == Bucket(keys[i], Summarize(Values(Filter(s, HasKey(g, keys[i])))))
    decreases i
  {
    assert keys[i] in keys;
    GroupNonEmpty(s, g, keys[i]);
    assert keys[0] in keys;
    GroupNonEmpty(s, g, keys[0]);
    var first := Bucket(keys[0], Summarize(Values(Filter(s, HasKey(g, keys[0])))));
    assert forall k :: k in keys[1..] ==> k in keys;
    assert BucketsFor(s, g, keys) == [first] + BucketsFor(s, g, keys[1..]);
    if i > 0 {
      BucketAt(s, g, keys[1..], i - 1);
      assert keys[1..][i - 1] == keys[i];
    }
  }

  function SumCounts(b: seq<Bucket>): nat {
    if b == [] then 0 else b[0].summary.count + SumCounts(b[1..])
  }

  /** The total of the group sizes over some keys. */
  function GroupSizes(s: seq<Sample>, g: GroupBy, keys: seq<BucketKey>): nat {
    if keys == [] then 0 else |Filter(s, HasKey(g, keys[0]))| + GroupSizes(s, g, keys[1..])
  }

  lemma {:induction false} SumCountsIsGroupSizes(s: seq<Sample>, g: GroupBy, keys: seq<BucketKey>)
    requires forall k :: k in keys ==> exists x :: x in s && KeyOf(x, g) == k
    ensures SumCounts(BucketsFor(s, g, keys)) == GroupSizes(s, g, keys)
    decreases |keys|
  {
    if keys != [] {
      assert forall k :: k in keys[1..] ==> k in keys;
      SumCountsIsGroupSizes(s, g, keys[1..]);
      assert BucketsFor(s, g, keys)[1..] == BucketsFor(s, g, keys[1..]);
    }
  }

  /** Prepending one sample adds one to the group of its key and nothing to
      the others. */
  lemma {:induction false} GroupSizesCons(x: Sample, s: seq<Sample>, g: GroupBy, keys: seq<BucketKey>)
    requires NoDuplicates(keys)
    ensures GroupSizes([x] + s, g, keys) == GroupSizes(s, g, keys) + (if KeyOf(x, g) in keys then 1 else 0)
    decreases |keys|
  {
    if keys != [] {
      assert ([x] + s)[1..] == s;
      var tail := keys[1..];
      assert keys == [keys[0]] + tail;
      assert NoDuplicates(tail) by {
        forall k ensures multiset(tail)[k] <= 1 {
          assert multiset(keys)[k] == multiset([keys[0]])[k] + multiset(tail)[k];
        }
      }
      if KeyOf(x, g) == keys[0] {
        assert multiset(keys)[keys[0]] == 1 + multiset(tail)[keys[0]];
        assert KeyOf(x, g) !in multiset(tail);
      }
      GroupSizesCons(x, s, g, tail);
    }
  }

  lemma {:induction false} GroupSizesEmpty(g: GroupBy, keys: seq<BucketKey>)
    ensures GroupSizes([], g, keys) == 0
    decreases |keys|
  {
    if keys != [] {
      GroupSizesEmpty(g, keys[1..]);
    }
  }

  /** With distinct keys covering every sample, the groups partition the samples. */
  lemma {:induction false} GroupsPartition(s: seq<Sample>, g: GroupBy, keys: seq<BucketKey>)
    requires NoDuplicates(keys)
    requires forall x :: x in s ==> KeyOf(x, g) in keys
    ensures GroupSizes(s, g, keys) == |s|
    decreases |s|
  {
    if s == [] {
      GroupSizesEmpty(g, keys);
    } else {
      assert s == [s[0]] + s[1..];
      assert forall x :: x in s[1..] ==> x in s;
      GroupsPartition(s[1..], g, keys);
      GroupSizesCons(s[0], s[1..], g, keys);
    }
  }

  /** The samples the `$match` stage keeps: the deployment's samples inside the window. */
  function Matched(store: seq<Sample>, deployment: DeploymentId, range: TimeRange, now: Millis): seq<Sample> {
    Find(store, Query(deployment, None, None, WindowStart(range, now)))
  }

  /** The `$group` and `$sort` stages over the matched samples: one bucket
      per key, in ascending interval order. */
  function Aggregate(matched: seq<Sample>, g: GroupBy): seq<Bucket> {
    BucketsFor(matched, g, BucketKeys(matched, g))
  }

  /** The buckets come in ascending interval order, one per key, and every
      matched sample has the bucket of its key. */
  lemma AggregateBuckets(matched: seq<Sample>, g: GroupBy)
    ensures var b := Aggregate(matched, g);
      && (forall i, j :: 0 <= i < j < |b| ==> b[i].key.interval <= b[j].key.interval && b[i].key != b[j].key)
      && (forall x :: x in matched ==> exists i :: 0 <= i < |b| && b[i].key == KeyOf(x, g))
  {
    var keys := BucketKeys(matched, g);
    var b := Aggregate(matched, g);
    forall i, j | 0 <= i < j < |b| ensures b[i].key != b[j].key {
      if keys[i] == keys[j] {
        TwoOccurrences(keys, i, j);
      }
    }
    forall x | x in matched ensures exists i :: 0 <= i < |b| && b[i].key == KeyOf(x, g) {
      var i :| 0 <= i < |keys| && keys[i] == KeyOf(x, g);
      assert b[i].key == KeyOf(x, g);
    }
  }

  /** A bucket summarises exactly the samples of its key, fed to `$group` in
      stored order (the order the model takes where the database leaves it open):
      the group is never empty, the count is its size, `latest` its last value,
      and min, avg and max bound one another and every value of the group. */
  ghost predicate SummarizesGroup(s: seq<Sample>, g: GroupBy, bucket: Bucket) {
    var group := Filter(s, HasKey(g, bucket.key));
    && group != []
    && bucket.summary.count == |group|
    && bucket.summary.latest == group[|group| - 1].value
    && bucket.summary.min <= bucket.summary.avg <= bucket.summary.max
    && (forall x :: x in group ==> bucket.summary.min <= x.value <= bucket.summary.max)
  }

  ghost predicate SummarizesGroups(s: seq<Sample>, g: GroupBy, b: seq<Bucket>) {
    forall i :: 0 <= i < |b| ==> SummarizesGroup(s, g, b[i])
  }

  /** Each bucket of the pipeline summarises the matched samples of its key. */
  lemma AggregateSummaries(matched: seq<Sample>, g: GroupBy)
    ensures SummarizesGroups(matched, g, Aggregate(matched, g))
  {
    var keys := BucketKeys(matched, g);
    assert Aggregate(matched, g) == BucketsFor(matched, g, keys);
    BucketSummaries(matched, g, keys);
  }

  lemma BucketSummaries(s: seq<Sample>, g: GroupBy, keys: seq<BucketKey>)
    requires forall k :: k in keys ==> exists x :: x in s && KeyOf(x, g) == k
    ensures SummarizesGroups(s, g, BucketsFor(s, g, keys))
  {
    var b := BucketsFor(s, g, keys);
    forall i | 0 <= i < |b| ensures SummarizesGroup(s, g, b[i]) {
      BucketAt(s, g, keys, i);
      SummaryOfGroup(s, g, keys[i]);
    }
  }

  /** What a group summary says about the samples of the group. */
  lemma SummaryOfGroup(s: seq<Sample>, g: GroupBy, k: BucketKey)
    requires Filter(s, HasKey(g, k)) != []
    ensures SummarizesGroup(s, g, Bucket(k, Summarize(Values(Filter(s, HasKey(g, k))))))
  {
    var group := Filter(s, HasKey(g, k));
    var vs := Values(group);
    forall x | x in group ensures Summarize(vs).min <= x.value <= Summarize(vs).max {
      var m :| 0 <= m < |group| && group[m] == x;
      assert vs[m] in vs;
    }
  }

  /** The bucket counts add up to the number of matched samples. */
  lemma AggregateCountsAddUp(matched: seq<Sample>, g: GroupBy)
    ensures SumCounts(Aggregate(matched, g)) == |matched|
  {
    var keys := BucketKeys(matched, g);
    SumCountsIsGroupSizes(matched, g, keys);
    GroupsPartition(matched, g, keys);
  }

  /** The `data` of GET /api/metrics/:deploymentId/aggregated. */
  datatype AggregateReply = AggregateReply(buckets: seq<Bucket>, timeRange: TimeRange, groupBy: GroupBy)

  /** The aggregation parameters, as strings when present. */
  datatype AggregateParams = AggregateParams(timeRange: Option<string>, groupBy: Option<string>)

  /** GET /api/metrics/:deploymentId/aggregated: validation, then lookup and
      ownership, then the pipeline with the time range (default 24h) and the
      grouping (default hour). */
  function GetAggregated(store: seq<Sample>, deployment: DeploymentId, owner: Option<UserId>,
                         requester: UserId, role: Role, p: AggregateParams, now: Millis): (r: Reply<AggregateReply>)
    ensures r == BadRequest <==> RangeOrDefault(p.timeRange).None? || ParseGroupBy(p.groupBy).None?
    ensures RangeOrDefault(p.timeRange).Some? && ParseGroupBy(p.groupBy).Some? ==>
      (r == NotFound <==> owner.None?) &&
      (r == Forbidden <==> owner.Some? && !CanAccess(owner.value, requester, role))
    ensures r.Success? ==>
      && owner.Some? && CanAccess(owner.value, requester, role)
      && r.body.timeRange == RangeOrDefault(p.timeRange).value
      && r.body.groupBy == ParseGroupBy(p.groupBy).value
      && r.body.buckets == Aggregate(Matched(store, deployment, r.body.timeRange, now), r.body.groupBy)
  {
    var range := RangeOrDefault(p.timeRange);
    var g := ParseGroupBy(p.groupBy);
    if range.None? || g.None? then BadRequest
    else Guard(owner, requester, role,
               AggregateReply(Aggregate(Matched(store, deployment, range.value, now), g.value), range.value, g.value))
  }

  // ---------------------------------------------------------------- trends

  /** The `data` of GET /api/metrics/:deploymentId/trends. */
  datatype TrendReply = TrendReply(trend: TrendResult, kind: MetricType, timeRange: TimeRange)

  /** The trend parameters: a type, which is required, and a time range. */
  datatype TrendParams = TrendParams(kind: Option<string>, timeRange: Option<string>)

  /** GET /api/metrics/:deploymentId/trends: a missing or unknown type or an
      unknown time range is a 400; then lookup and ownership; then the trend
      of the type over the window (default 24h). */
  function GetTrend(store: seq<Sample>, deployment: DeploymentId, owner: Option<UserId>,
                    requester: UserId, role: Role, p: TrendParams, now: Millis): (r: Reply<TrendReply>)
    ensures r == BadRequest <==>
      p.kind.None? || ParseMetricType(p.kind.value).None? || RangeOrDefault(p.timeRange).None?
    ensures p.kind.Some? && ParseMetricType(p.kind.value).Some? && RangeOrDefault(p.timeRange).Some? ==>
      (r == NotFound <==> owner.None?) &&
      (r == Forbidden <==> owner.Some? && !CanAccess(owner.value, requester, role))
    ensures r.Success? ==>
      && owner.Some? && CanAccess(owner.value, requester, role)
      && MetricTypeName(r.body.kind) == p.kind.value
      && r.body.timeRange == RangeOrDefault(p.timeRange).value
      && r.body.trend == CalculateTrend(store, deployment, r.body.kind, r.body.timeRange, now)
  {
    if p.kind.None? || ParseMetricType(p.kind.value).None? || RangeOrDefault(p.timeRange).None? then BadRequest
    else
      var kind := ParseMetricType(p.kind.value).value;
      var range := RangeOrDefault(p.timeRange).value;
      Guard(owner, requester, role, TrendReply(CalculateTrend(store, deployment, kind, range, now), kind, range))
  }

  // ---------------------------------------------------------------- create

  /** The request body of POST /api/metrics/:deploymentId. `value` is absent
      when the field is missing or not numeric; `deployment` and `timestamp`
      are fields the body may carry besides the validated ones. */
  datatype MetricBody = MetricBody(
    kind: Option<string>,
    value: Option<real>,
    unit: Option<string>,
    service: Option<string>,
    deployment: Option<DeploymentId>,
    timestamp: Option<Millis>)

  datatype BodyField = TypeField | ValueField | UnitField | ServiceField

  /** The validator's findings, in the order of the validation chain. */
  function BodyErrors(b: MetricBody): (errs: seq<BodyField>)
    ensures TypeField in errs <==> b.kind.None? || ParseMetricType(b.kind.value).None?
    ensures ValueField in errs <==> b.value.None?
    ensures UnitField in errs <==> b.unit.None? || ParseUnit(b.unit.value).None?
    ensures ServiceField in errs <==> b.service.Some? && ParseMetricService(b.service.value).None?
  {
    (if b.kind.None? || ParseMetricType(b.kind.value).None? then [TypeField] else []) +
    (if b.value.None? then [ValueField] else []) +
    (if b.unit.None? || ParseUnit(b.unit.value).None? then [UnitField] else []) +
    (if b.service.Some? && ParseMetricService(b.service.value).None? then [ServiceField] else [])
  }

  /** The document `Metric.create({ deployment: deploymentId, ...req.body })`
      stores, as written: the spread comes second, so a `deployment` in the
      body replaces the id whose access was checked. */
  function NewSampleAsWritten(route: DeploymentId, b: MetricBody, now: Millis): (s: Sample)
    requires BodyErrors(b) == []
    ensures s.deployment == if b.deployment.Some? then b.deployment.value else route
  {
    Sample(
      b.deployment.GetOr(route),
      ParseMetricType(b.kind.value).value,
      b.value.value,
      ParseUnit(b.unit.value).value,
      b.timestamp.GetOr(now),
      if b.service.Some? then ParseMetricService(b.service.value).value else DefaultService)
  }

  /** A requester allowed on deployment 1 files a sample under deployment 2. */
  lemma BodyOverridesRouteDeployment()
    ensures var b := MetricBody(Some("cpu_usage"), Some(50.0), Some("percent"), None, Some(2), None);
      && BodyErrors(b) == []
      && NewSampleAsWritten(1, b, 0).deployment == 2
  {
    var b := MetricBody(Some("cpu_usage"), Some(50.0), Some("percent"), None, Some(2), None);
    assert ParseMetricType("cpu_usage") == Some(CpuUsage);
    assert ParseUnit("percent") == Some(Percent);
  }

  /** The document the route should store: the checked route id always wins;
      the validated fields are the parsed body fields, the service defaults to
      `overall` and the timestamp to the current time. */
  function NewSample(route: DeploymentId, b: MetricBody, now: Millis): (s: Sample)
    requires BodyErrors(b) == []
    ensures s.deployment == route
    ensures MetricTypeName(s.kind) == b.kind.value && UnitName(s.unit) == b.unit.value
    ensures s.value == b.value.value
    ensures b.service.Some? ==> MetricServiceName(s.service) == b.service.value
    ensures b.service.None? ==> s.service == DefaultService
    ensures s.timestamp == b.timestamp.GetOr(now)
  {
    Sample(
      route,
      ParseMetricType(b.kind.value).value,
      b.value.value,
      ParseUnit(b.unit.value).value,
      b.timestamp.GetOr(now),
      if b.service.Some? then ParseMetricService(b.service.value).value else DefaultService)
  }

  /** POST /api/metrics/:deploymentId: 400 on any body error, 404 for an
      unknown deployment, 403 for a requester who is neither owner nor admin,
      otherwise 201 and exactly one new sample, filed under the route's id. */
  method CreateMetric(metrics: MetricCollection, route: DeploymentId, owner: Option<UserId>,
                      requester: UserId, role: Role, b: MetricBody, now: Millis) returns (code: int)
    modifies metrics
    ensures code == 400 <==> BodyErrors(b) != []
    ensures BodyErrors(b) == [] ==>
      (code == 404 <==> owner.None?) &&
      (code == 403 <==> owner.Some? && !CanAccess(owner.value, requester, role))
    ensures code == 201 ==> BodyErrors(b) == [] && metrics.samples == old(metrics.samples) + [NewSample(route, b, now)]
    ensures code != 201 ==> metrics.samples == old(metrics.samples)
    ensures code in {201, 400, 403, 404}
  {
    if BodyErrors(b) != [] {
      return 400;
    }
    if owner.None? {
      return 404;
    }
    if !CanAccess(owner.value, requester, role) {
      return 403;
    }
    metrics.Create(NewSample(route, b, now));
    code := 201;
  }
}
