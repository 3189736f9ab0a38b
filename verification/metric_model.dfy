/** The metric time series (backend/models/Metric.js): samples drawn from fixed
    type, unit and service vocabularies, window queries newest first, a 30-day
    expiry, the single-group aggregate and the midpoint trend. */
module MetricModel {
  import opened Common

  datatype MetricType =
    | ResponseTime | ErrorRate | RequestCount | CpuUsage | MemoryUsage
    | DiskUsage | NetworkIo | Uptime | Throughput | Latency

  function MetricTypeName(t: MetricType): string {
    match t
    case ResponseTime => "response_time"
    case ErrorRate => "error_rate"
    case RequestCount => "request_count"
    case CpuUsage => "cpu_usage"
    case MemoryUsage => "memory_usage"
    case DiskUsage => "disk_usage"
    case NetworkIo => "network_io"
    case Uptime => "uptime"
    case Throughput => "throughput"
    case Latency => "latency"
  }

  /** Membership in the ten-value `type` enum. */
  function ParseMetricType(s: string): (r: Option<MetricType>)
    ensures r.Some? ==> MetricTypeName(r.value) == s
    ensures r.None? ==> forall t :: MetricTypeName(t) != s
  {
    if s == "response_time" then Some(ResponseTime)
    else if s == "error_rate" then Some(ErrorRate)
    else if s == "request_count" then Some(RequestCount)
    else if s == "cpu_usage" then Some(CpuUsage)
    else if s == "memory_usage" then Some(MemoryUsage)
    else if s == "disk_usage" then Some(DiskUsage)
    else if s == "network_io" then Some(NetworkIo)
    else if s == "uptime" then Some(Uptime)
    else if s == "throughput" then Some(Throughput)
    else if s == "latency" then Some(Latency)
    else None
  }

  lemma MetricTypeRoundTrip(t: MetricType)
    ensures ParseMetricType(MetricTypeName(t)) == Some(t)
  {
    match t
    case ResponseTime =>
    case ErrorRate =>
    case RequestCount =>
    case CpuUsage =>
    case MemoryUsage =>
    case DiskUsage =>
    case NetworkIo =>
    case Uptime =>
    case Throughput =>
    case Latency =>
  }

  datatype Unit = Ms | Percent | Count | Bytes | RequestsPerMin | Mb | Gb

  function UnitName(u: Unit): string {
    match u
    case Ms => "ms"
    case Percent => "percent"
    case Count => "count"
    case Bytes => "bytes"
    case RequestsPerMin => "requests/min"
    case Mb => "mb"
    case Gb => "gb"
  }

  /** Membership in the seven-value `unit` enum. */
  function ParseUnit(s: string): (r: Option<Unit>)
    ensures r.Some? ==> UnitName(r.value) == s
    ensures r.None? ==> forall u :: UnitName(u) != s
  {
    if s == "ms" then Some(Ms)
    else if s == "percent" then Some(Percent)
    else if s == "count" then Some(Count)
    else if s == "bytes" then Some(Bytes)
    else if s == "requests/min" then Some(RequestsPerMin)
    else if s == "mb" then Some(Mb)
    else if s == "gb" then Some(Gb)
    else None
  }

  lemma UnitRoundTrip(u: Unit)
    ensures ParseUnit(UnitName(u)) == Some(u)
  {
    match u
    case Ms =>
    case Percent =>
    case Count =>
    case Bytes =>
    case RequestsPerMin =>
    case Mb =>
    case Gb =>
  }

  datatype MetricService = Frontend | Backend | Database | Overall

  function MetricServiceName(s: MetricService): string {
    match s
    case Frontend => "frontend"
    case Backend => "backend"
    case Database => "database"
    case Overall => "overall"
  }

  /** Membership in the four-value `service` enum. */
  function ParseMetricService(s: string): (r: Option<MetricService>)
    ensures r.Some? ==> MetricServiceName(r.value) == s
    ensures r.None? ==> forall m :: MetricServiceName(m) != s
  {
    if s == "frontend" then Some(Frontend)
    else if s == "backend" then Some(Backend)
    else if s == "database" then Some(Database)
    else if s == "overall" then Some(Overall)
    else None
  }

  /** A sample created without a `service` belongs to the deployment as a whole. */
  const DefaultService := Overall

  datatype TimeRange = LastHour | LastDay | LastWeek | LastMonth

  function TimeRangeName(r: TimeRange): string {
    match r
    case LastHour => "1h"
    case LastDay => "24h"
    case LastWeek => "7d"
    case LastMonth => "30d"
  }

  /** The keys of the `timeRanges` table. */
  function ParseTimeRange(s: string): (r: Option<TimeRange>)
    ensures r.Some? ==> TimeRangeName(r.value) == s
    ensures r.None? ==> forall t :: TimeRangeName(t) != s
  {
    if s == "1h" then Some(LastHour)
    else if s == "24h" then Some(LastDay)
    else if s == "7d" then Some(LastWeek)
    else if s == "30d" then Some(LastMonth)
    else None
  }

  /** The `timeRange` used when none is given. */
  const DefaultTimeRange := LastDay

  /** The lookback of each time range, in milliseconds. */
  function WindowMillis(r: TimeRange): nat {
    match r
    case LastHour => 60 * 60 * 1000
    case LastDay => 24 * 60 * 60 * 1000
    case LastWeek => 7 * 24 * 60 * 60 * 1000
    case LastMonth => 30 * 24 * 60 * 60 * 1000
  }

  /** The TTL index's `expireAfterSeconds`, in milliseconds. */
  const RetentionMillis: nat := 30 * 24 * 60 * 60 * 1000

  /** The windows are nested, and the widest is exactly the retention period,
      so every window query sees only samples the expiry sweep keeps. */
  lemma WindowsNested()
    ensures WindowMillis(LastHour) == 3_600_000 && WindowMillis(LastDay) == 86_400_000
    ensures WindowMillis(LastWeek) == 604_800_000 && WindowMillis(LastMonth) == 2_592_000_000
    ensures WindowMillis(LastHour) < WindowMillis(LastDay) < WindowMillis(LastWeek) < WindowMillis(LastMonth)
    ensures forall r :: WindowMillis(r) <= RetentionMillis
  {
  }

  /** One stored metric document. */
  datatype Sample = Sample(
    deployment: DeploymentId,
    kind: MetricType,
    value: real,
    unit: Unit,
    timestamp: Millis,
    service: MetricService)

  /** A `find` filter: the deployment, optional type and service, and `timestamp >= since`. */
  datatype Query = Query(
    deployment: DeploymentId,
    kind: Option<MetricType>,
    service: Option<MetricService>,
    since: Millis)

  predicate Matches(q: Query, s: Sample) {
    && s.deployment == q.deployment
    && (q.kind.Some? ==> s.kind == q.kind.value)
    && (q.service.Some? ==> s.service == q.service.value)
    && s.timestamp >= q.since
  }

  /** `find(q)` before any sort: the matching samples in stored order, each
      with its full multiplicity. */
  function Find(store: seq<Sample>, q: Query): (r: seq<Sample>)
    ensures forall i :: 0 <= i < |r| ==> Matches(q, r[i])
    ensures forall x :: multiset(r)[x] == if Matches(q, x) then multiset(store)[x] else 0
  {
    var p := (x: Sample) => Matches(q, x);
    FilterMultiset(store, p);
    Filter(store, p)
  }

  /** `find(q)` over a store extended by one sample. */
  lemma FindSnoc(store: seq<Sample>, x: Sample, q: Query)
    ensures Find(store + [x], q) == Find(store, q) + (if Matches(q, x) then [x] else [])
  {
    FilterSnoc(store, x, (y: Sample) => Matches(q, y));
  }

  /** The last sample `find` returns is the last matching sample in stored
      order: it matches, and no sample stored after it does. */
  lemma FindLastIsLastMatch(store: seq<Sample>, q: Query)
    ensures var i := LastIndex(store, (x: Sample) => Matches(q, x));
      && (Find(store, q) == [] <==> i == -1)
      && (Find(store, q) != [] ==>
            && Find(store, q)[|Find(store, q)| - 1] == store[i]
            && Matches(q, store[i])
            && forall j :: i < j < |store| ==> !Matches(q, store[j]))
  {
    FilterLast(store, (x: Sample) => Matches(q, x));
  }

  /** `sort({ timestamp: -1 })`: newest first. */
  predicate NewestFirst(s: seq<Sample>) {
    forall i, j :: 0 <= i < j < |s| ==> s[i].timestamp >= s[j].timestamp
  }

  /** Insertion of `x` before the first sample it is at least as new as. */
  function InsertNewestFirst(x: Sample, s: seq<Sample>): (r: seq<Sample>)
    ensures multiset(r) == multiset(s) + multiset{x}
    ensures |r| == |s| + 1 && (r[0] == x || (s != [] && r[0] == s[0]))
  {
    if s == [] || x.timestamp >= s[0].timestamp then [x] + s
    else
      assert s == [s[0]] + s[1..];
      [s[0]] + InsertNewestFirst(x, s[1..])
  }

  /** Insertion into a newest-first sequence keeps it newest first. */
  lemma {:induction false} InsertKeepsNewestFirst(x: Sample, s: seq<Sample>)
    requires NewestFirst(s)
    ensures NewestFirst(InsertNewestFirst(x, s))
    decreases |s|
  {
    if s != [] && x.timestamp < s[0].timestamp {
      var rest := InsertNewestFirst(x, s[1..]);
      InsertKeepsNewestFirst(x, s[1..]);
      assert rest[0].timestamp <= s[0].timestamp;
      assert InsertNewestFirst(x, s) == [s[0]] + rest;
    }
  }

  /** A newest-first ordering of the samples (ties in either order, as the
      database leaves them unspecified). */
  function SortNewestFirst(s: seq<Sample>): (r: seq<Sample>)
    ensures NewestFirst(r)
    ensures multiset(r) == multiset(s)
  {
    if s == [] then []
    else
      assert s == [s[0]] + s[1..];
      var rest := SortNewestFirst(s[1..]);
      InsertKeepsNewestFirst(s[0], rest);
      InsertNewestFirst(s[0], rest)
  }

  /** The first instant inside the window: `Date.now() - timeRanges[timeRange]`. */
  function WindowStart(range: TimeRange, now: Millis): Millis {
    now - WindowMillis(range)
  }

  /** `getMetricsForDeployment`: exactly the deployment's samples stamped at or
      after the window start, newest first. */
  function GetMetricsForDeployment(store: seq<Sample>, deployment: DeploymentId, range: TimeRange, now: Millis)
    : (r: seq<Sample>)
    ensures NewestFirst(r)
    ensures forall x :: (multiset(r)[x] ==
                         if x.deployment == deployment && x.timestamp >= now - WindowMillis(range)
                         then multiset(store)[x] else 0)
  {
    SortNewestFirst(Find(store, Query(deployment, None, None, WindowStart(range, now))))
  }

  /** The TTL index's sweep at time `now`: a sample expires once it is older
      than the retention period. */
  function Expire(store: seq<Sample>, now: Millis): (r: seq<Sample>)
    ensures forall i :: 0 <= i < |r| ==> r[i].timestamp >= now - RetentionMillis
    ensures forall x :: (multiset(r)[x] ==
                         if x.timestamp >= now - RetentionMillis then multiset(store)[x] else 0)
  {
    var p := (x: Sample) => x.timestamp >= now - RetentionMillis;
    FilterMultiset(store, p);
    Filter(store, p)
  }

  /** Expiry never changes what a query whose window lies inside the
      retention period returns, so all four time ranges are unaffected. */
  lemma ExpireKeepsWindows(store: seq<Sample>, now: Millis, q: Query)
    requires q.since >= now - RetentionMillis
    ensures Find(Expire(store, now), q) == Find(store, q)
  {
    FilterAbsorbs(store, (x: Sample) => x.timestamp >= now - RetentionMillis, (x: Sample) => Matches(q, x));
  }

  /** The values of the samples, in order. */
  function Values(s: seq<Sample>): (vs: seq<real>)
    ensures |vs| == |s| && forall i :: 0 <= i < |s| ==> vs[i] == s[i].value
  {
    if s == [] then [] else [s[0].value] + Values(s[1..])
  }

  function Sum(vs: seq<real>): real {
    if vs == [] then 0.0 else vs[0] + Sum(vs[1..])
  }

  /** `$min` over a non-empty group. */
  function MinOf(vs: seq<real>): (m: real)
    requires vs != []
    ensures m in vs && forall v :: v in vs ==> m <= v
  {
    if |vs| == 1 then vs[0]
    else
      var rest := MinOf(vs[1..]);
      assert forall v :: v in vs ==> v == vs[0] || v in vs[1..];
      if vs[0] <= rest then vs[0] else rest
  }

  /** `$max` over a non-empty group. */
  function MaxOf(vs: seq<real>): (m: real)
    requires vs != []
    ensures m in vs && forall v :: v in vs ==> v <= m
  {
    if |vs| == 1 then vs[0]
    else
      var rest := MaxOf(vs[1..]);
      assert forall v :: v in vs ==> v == vs[0] || v in vs[1..];
      if vs[0] >= rest then vs[0] else rest
  }

  /** The number of values, counted in the reals the averages are taken in. */
  function Size(vs: seq<real>): (n: real)
    ensures n == |vs| as real
  {
    if vs == [] then 0.0 else 1.0 + Size(vs[1..])
  }

  /** A lower bound of every value bounds the sum by count * bound. */
  lemma {:induction false} SumAtLeast(vs: seq<real>, lo: real)
    requires forall v :: v in vs ==> lo <= v
    ensures Size(vs) * lo <= Sum(vs)
    decreases |vs|
  {
    if vs != [] {
      assert vs[0] in vs;
      assert forall v :: v in vs[1..] ==> v in vs;
      SumAtLeast(vs[1..], lo);
      assert Size(vs) * lo == lo + Size(vs[1..]) * lo;
    }
  }

  /** An upper bound of every value bounds the sum by count * bound. */
  lemma {:induction false} SumAtMost(vs: seq<real>, hi: real)
    requires forall v :: v in vs ==> v <= hi
    ensures Sum(vs) <= Size(vs) * hi
    decreases |vs|
  {
    if vs != [] {
      assert vs[0] in vs;
      assert forall v :: v in vs[1..] ==> v in vs;
      SumAtMost(vs[1..], hi);
      assert Size(vs) * hi == hi + Size(vs[1..]) * hi;
    }
  }

  /** An average lies between the bounds its total respects. */
  lemma DivideBounds(sum: real, n: real, lo: real, hi: real)
    requires n > 0.0 && n * lo <= sum <= n * hi
    ensures lo <= sum / n <= hi
  {
    assert sum / n * n == sum;
  }

  /** One `$group` result: `$avg`, `$min`, `$max`, `$sum: 1` and `$last`. */
  datatype Summary = Summary(avg: real, min: real, max: real, count: nat, latest: real)

  /** The group summary of a non-empty sequence of values in input order. */
  function Summarize(vs: seq<real>): (r: Summary)
    requires vs != []
    ensures r.count == |vs| && r.latest == vs[|vs| - 1]
    ensures r.min in vs && r.max in vs
    ensures forall v :: v in vs ==> r.min <= v <= r.max
    ensures r.min <= r.avg <= r.max
    ensures |vs| == 1 ==> r.avg == r.min == r.max == r.latest == vs[0]
  {
    assert |vs| == 1 ==> Sum(vs) == vs[0];
    Summary(Mean(vs), MinOf(vs), MaxOf(vs), |vs|, vs[|vs| - 1])
  }

  /** `$avg`: the total over the count, which lies between the smallest and
      the largest value. */
  function Mean(vs: seq<real>): (m: real)
    requires vs != []
    ensures MinOf(vs) <= m <= MaxOf(vs)
  {
    var n := Size(vs);
    SumAtLeast(vs, MinOf(vs));
    SumAtMost(vs, MaxOf(vs));
    DivideBounds(Sum(vs), n, MinOf(vs), MaxOf(vs));
    Sum(vs) / n
  }

  /** The summary's average is the arithmetic mean: the total of the values
      over their number. */
  lemma SummaryAvgIsMean(vs: seq<real>)
    requires vs != []
    ensures Summarize(vs).avg == Sum(vs) / (|vs| as real)
  {
    assert Size(vs) == |vs| as real;
    assert Summarize(vs).avg == Mean(vs);
  }

  /** Two samples of 10 and 20 summarise to an average of 15, a minimum of 10,
      a maximum of 20, a count of 2 and a latest value of 20. */
  lemma TwoValueSummary()
    ensures Summarize([10.0, 20.0]) == Summary(15.0, 10.0, 20.0, 2, 20.0)
  {
    assert [10.0, 20.0][1..] == [20.0];
    assert Sum([10.0, 20.0]) == 30.0;
    SummaryAvgIsMean([10.0, 20.0]);
  }

  /** `getAggregatedMetrics`: one summary of the deployment's samples of the
      given type inside the window, with `latest` the last of them in the
      order `$group` receives them, which the database leaves open and the
      model takes as stored order; no summary at all when nothing matches. */
  function GetAggregatedMetrics(store: seq<Sample>, deployment: DeploymentId, kind: MetricType, range: TimeRange, now: Millis)
    : (r: seq<Summary>)
    ensures var matched := Find(store, Query(deployment, Some(kind), None, WindowStart(range, now)));
      && (r == [] <==> matched == [])
      && (matched != [] ==>
            && |r| == 1
            && r[0].count == |matched|
            && r[0].latest == matched[|matched| - 1].value
            && r[0] == Summarize(Values(matched))
            && r[0].min <= r[0].avg <= r[0].max
            && (forall x :: x in matched ==> r[0].min <= x.value <= r[0].max))
  {
    var matched := Find(store, Query(deployment, Some(kind), None, WindowStart(range, now)));
    if matched == [] then []
    else
      var vs := Values(matched);
      assert forall x :: x in matched ==> x.value in vs;
      [Summarize(vs)]
  }

  datatype Trend = Up | Down | Stable

  /** The JavaScript number `(latest - previous) / previous * 100`, including
      what the division yields when `previous` is zero. */
  datatype Change = Finite(value: real) | PosInfinity | NegInfinity | NaN

  function PercentChange(latest: real, previous: real): Change {
    if previous != 0.0 then Finite((latest - previous) / previous * 100.0)
    else if latest > 0.0 then PosInfinity
    else if latest < 0.0 then NegInfinity
    else NaN
  }

  /** `Math.abs(change) > 5 ? (change > 0 ? "up" : "down") : "stable"`. */
  function Classify(c: Change): Trend {
    match c
    case Finite(v) => if v > 5.0 || v < -5.0 then (if v > 0.0 then Up else Down) else Stable
    case PosInfinity => Up
    case NegInfinity => Down
    case NaN => Stable
  }

  /** `Math.round(change * 100) / 100`; infinities and NaN pass through. */
  function RoundChange(c: Change): Change {
    if c.Finite? then Finite(Round2(c.value)) else c
  }

  datatype TrendResult = TrendResult(trend: Trend, change: Change)

  const StableNoChange := TrendResult(Stable, Finite(0.0))

  /** The trend between a latest and a reference value, read as a relative
      change: more than 5 % up, more than 5 % down, or within 5 % (including
      exactly 5 %). A zero reference gives an infinite or undefined change. */
  function TrendBetween(latest: real, previous: real): (r: TrendResult)
    ensures previous > 0.0 ==>
      (r.trend == Up <==> latest > previous * 1.05) &&
      (r.trend == Down <==> latest < previous * 0.95)
    ensures previous < 0.0 ==>
      (r.trend == Up <==> latest < previous * 1.05) &&
      (r.trend == Down <==> latest > previous * 0.95)
    ensures previous == 0.0 ==>
      (r.trend == Up <==> latest > 0.0) && (r.trend == Down <==> latest < 0.0) &&
      (r.change.Finite? <==> false)
    ensures previous != 0.0 ==>
      && r.change == Finite(Round2((latest - previous) / previous * 100.0))
      && (latest - previous) / previous * 100.0 - 0.005 < r.change.value
      && r.change.value <= (latest - previous) / previous * 100.0 + 0.005
  {
    var c := PercentChange(latest, previous);
    RelativeChange(latest, previous);
    TrendResult(Classify(c), RoundChange(c))
  }

  /** Comparing the percentage change with 5 is comparing the latest value
      with 105 % and 95 % of the reference (the sense flips for a negative
      reference). */
  lemma RelativeChange(latest: real, previous: real)
    ensures previous != 0.0 ==> var v := (latest - previous) / previous * 100.0;
      && (previous > 0.0 ==> (v > 5.0 <==> latest > previous * 1.05) && (v < -5.0 <==> latest < previous * 0.95))
      && (previous < 0.0 ==> (v > 5.0 <==> latest < previous * 1.05) && (v < -5.0 <==> latest > previous * 0.95))
  {
    if previous > 0.0 {
      var q := (latest - previous) / previous;
      var v := q * 100.0;
      assert q * previous == latest - previous;
      assert v > 5.0 <==> q > 0.05;
      assert q > 0.05 <==> q * previous > 0.05 * previous;
      assert q < -0.05 <==> q * previous < -0.05 * previous;
    } else if previous < 0.0 {
      var q := (latest - previous) / previous;
      assert q * previous == latest - previous;
      assert q > 0.05 <==> q * previous < 0.05 * previous;
      assert q < -0.05 <==> q * previous > -0.05 * previous;
    }
  }

  /** Filtering keeps a newest-first sequence newest first. */
  lemma {:induction false} FilterNewestFirst(s: seq<Sample>, p: Sample -> bool)
    requires NewestFirst(s)
    ensures NewestFirst(Filter(s, p))
    decreases |s|
  {
    if s != [] {
      var rest := Filter(s[1..], p);
      FilterNewestFirst(s[1..], p);
      forall k | 0 <= k < |rest| ensures rest[k].timestamp <= s[0].timestamp {
        var j :| 0 <= j < |s[1..]| && s[1..][j] == rest[k];
        assert s[j + 1] == rest[k];
      }
    }
  }

  /** The samples of one type among the window's samples, still newest first. */
  function OfKind(s: seq<Sample>, kind: MetricType): (r: seq<Sample>)
    requires NewestFirst(s)
    ensures NewestFirst(r)
    ensures forall x :: multiset(r)[x] == if x.kind == kind then multiset(s)[x] else 0
  {
    var p := (x: Sample) => x.kind == kind;
    FilterNewestFirst(s, p);
    FilterMultiset(s, p);
    Filter(s, p)
  }

  /** `calculateTrend`: among the window's samples of the type, newest first,
      fewer than two give a stable trend with zero change; otherwise the
      newest sample is compared with the one at index floor(n/2). */
  function CalculateTrend(store: seq<Sample>, deployment: DeploymentId, kind: MetricType, range: TimeRange, now: Millis)
    : (r: TrendResult)
    ensures var ms := OfKind(GetMetricsForDeployment(store, deployment, range, now), kind);
      && (|ms| < 2 ==> r == StableNoChange)
      && (|ms| >= 2 ==>
            && r == TrendBetween(ms[0].value, ms[|ms| / 2].value)
            && (forall x :: x in ms ==> x.timestamp <= ms[0].timestamp)
            && ms[|ms| / 2].timestamp <= ms[0].timestamp)
  {
    var ms := OfKind(GetMetricsForDeployment(store, deployment, range, now), kind);
    if |ms| < 2 then StableNoChange
    else TrendBetween(ms[0].value, ms[|ms| / 2].value)
  }

  /** The worked example: a newest value of 120 against a midpoint of 100 is
      a 20 % rise, reported as `up`. */
  lemma TwentyPercentRise()
    ensures TrendBetween(120.0, 100.0) == TrendResult(Up, Finite(20.0))
  {
    assert (120.0 - 100.0) / 100.0 * 100.0 == 20.0;
    assert RoundHalfUp(2000.0) == 2000;
  }

  /** The stored collection of samples, in insertion order. */
  class MetricCollection {
    var samples: seq<Sample>

    constructor ()
      ensures samples == []
    {
      samples := [];
    }

    /** `Metric.create`: store one already validated sample. */
    method Create(s: Sample)
      modifies this
      ensures samples == old(samples) + [s]
    {
      samples := samples + [s];
    }

    /** `deleteMany({ deployment: id })`: every sample of the deployment goes,
        every other sample stays, in order. */
    method DeleteForDeployment(id: DeploymentId) returns (deleted: nat)
      modifies this
      ensures samples == Filter(old(samples), (x: Sample) => x.deployment != id)
      ensures forall x :: multiset(samples)[x] == if x.deployment == id then 0 else multiset(old(samples))[x]
      ensures deleted == |old(samples)| - |samples|
    {
      var p := (x: Sample) => x.deployment != id;
      FilterMultiset(samples, p);
      var kept := Filter(samples, p);
      deleted := |samples| - |kept|;
      samples := kept;
    }

    /** `deleteMany({ timestamp: { $lt: cutoff } })`. */
    method DeleteOlderThan(cutoff: Millis) returns (deleted: nat)
      modifies this
      ensures samples == Filter(old(samples), (x: Sample) => x.timestamp >= cutoff)
      ensures forall x :: multiset(samples)[x] == if x.timestamp < cutoff then 0 else multiset(old(samples))[x]
      ensures deleted == |old(samples)| - |samples|
    {
      var p := (x: Sample) => x.timestamp >= cutoff;
      FilterMultiset(samples, p);
      var kept := Filter(samples, p);
      deleted := |samples| - |kept|;
      samples := kept;
    }
  }
}
