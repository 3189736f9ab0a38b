/** The service health endpoints (backend/routes/health.js): a report whose
    overall status starts at OK and is only ever raised as the database,
    memory and CPU checks run, the HTTP code derived from it, and the
    readiness conjunction. Process and OS readings arrive as parameters. */
module HealthRoutes {

  /** The overall and per-check levels, in increasing severity. */
  datatype Severity = Ok | Warning | Error

  function Rank(s: Severity): nat {
    match s
    case Ok => 0
    case Warning => 1
    case Error => 2
  }

  /** The more severe of two levels. */
  function Worse(a: Severity, b: Severity): (r: Severity)
    ensures r == a || r == b
    ensures Rank(r) >= Rank(a) && Rank(r) >= Rank(b)
  {
    if Rank(a) >= Rank(b) then a else b
  }

  /** `if (status === "OK") status = level`: raising to a level never lowers the status. */
  lemma RaiseIsWorse(s: Severity)
    ensures (if s == Ok then Warning else s) == Worse(s, Warning)
    ensures (if s == Ok then Error else Error) == Worse(s, Error)
  {
  }

  /** What the database check observed: `readyState !== 1`, a ping that
      threw, or a ping that answered. */
  datatype DbProbe = Disconnected | PingFailed | PingOk

  /** OK and WARNING answer 200, ERROR answers 503. */
  function StatusCode(s: Severity): (code: int)
    ensures code == 503 <==> s == Error
    ensures code == 200 <==> s != Error
  {
    match s
    case Ok => 200
    case Warning => 200
    case Error => 503
  }

  /** The database check's verdict: OK only when connected and the ping answered. */
  function DatabaseLevel(db: DbProbe): Severity {
    if db == PingOk then Ok else Error
  }

  /** The overall status of GET /api/health: the database contributes ERROR
      when it is not ready and memory above 90 % contributes WARNING. */
  function BasicStatus(db: DbProbe, memoryPercent: real): Severity {
    Worse(DatabaseLevel(db), if memoryPercent > 90.0 then Warning else Ok)
  }

  /** Each overall status of GET /api/health, and exactly when it occurs. */
  lemma BasicStatusCases(db: DbProbe, memoryPercent: real)
    ensures BasicStatus(db, memoryPercent) == Error <==> db != PingOk
    ensures BasicStatus(db, memoryPercent) == Warning <==> db == PingOk && memoryPercent > 90.0
    ensures BasicStatus(db, memoryPercent) == Ok <==> db == PingOk && memoryPercent <= 90.0
  {
  }

  datatype BasicReport = BasicReport(status: Severity, database: Severity, memory: Severity, code: int, success: bool)

  /** GET /api/health: the report is built at OK and overwritten as the checks run. */
  method BasicHealth(db: DbProbe, memoryPercent: real) returns (r: BasicReport)
    ensures r.database == DatabaseLevel(db)
    ensures r.memory == if memoryPercent > 90.0 then Warning else Ok
    ensures r.status == BasicStatus(db, memoryPercent)
    ensures r.code == StatusCode(r.status)
    ensures r.success <==> r.status != Error
  {
    var status := Ok;
    var database := Ok;
    var memory := Ok;
    match db {
      case Disconnected =>
        database := Error;
        status := Error;
      case PingFailed =>
        // connected: marked OK, then the ping throws into the catch block
        database := Ok;
        database := Error;
        status := Error;
      case PingOk =>
        database := Ok;
    }
    if memoryPercent > 90.0 {
      memory := Warning;
      if status == Ok {
        status := Warning;
      }
    }
    var code := if status == Ok then 200 else if status == Warning then 200 else 503;
    r := BasicReport(status, database, memory, code, status != Error);
  }

  /** The detailed memory verdict. */
  datatype MemoryLevel = MemoryOk | MemoryWarning | MemoryCritical

  function MemoryCheck(memoryPercent: real): MemoryLevel {
    if memoryPercent > 90.0 then MemoryCritical
    else if memoryPercent > 75.0 then MemoryWarning
    else MemoryOk
  }

  /** What a memory verdict contributes to the overall status. */
  function MemorySeverity(m: MemoryLevel): Severity {
    match m
    case MemoryOk => Ok
    case MemoryWarning => Warning
    case MemoryCritical => Error
  }

  /** `loadavg()[0] / cpus().length > 0.8` with JavaScript division: with no
      CPUs reported a positive load divides to Infinity and a zero load to NaN. */
  predicate CpuOverloaded(load: real, cpus: nat) {
    if cpus == 0 then load > 0.0 else load / cpus as real > 0.8
  }

  /** The overall status of GET /api/health/detailed. */
  function DetailedStatus(db: DbProbe, memoryPercent: real, load: real, cpus: nat): Severity {
    Worse(Worse(DatabaseLevel(db), MemorySeverity(MemoryCheck(memoryPercent))),
          if CpuOverloaded(load, cpus) then Warning else Ok)
  }

  /** Each overall status of the detailed check, and exactly when it occurs:
      critical memory is an error on its own, and no warning hides an error. */
  lemma DetailedStatusCases(db: DbProbe, memoryPercent: real, load: real, cpus: nat)
    ensures DetailedStatus(db, memoryPercent, load, cpus) == Error <==>
      db != PingOk || memoryPercent > 90.0
    ensures DetailedStatus(db, memoryPercent, load, cpus) == Warning <==>
      db == PingOk && memoryPercent <= 90.0 && (memoryPercent > 75.0 || CpuOverloaded(load, cpus))
    ensures DetailedStatus(db, memoryPercent, load, cpus) == Ok <==>
      db == PingOk && memoryPercent <= 75.0 && !CpuOverloaded(load, cpus)
  {
  }

  datatype DetailedReport = DetailedReport(
    status: Severity,
    database: Severity,
    memory: MemoryLevel,
    cpu: Severity,
    code: int,
    success: bool)

  /** GET /api/health/detailed: database, then memory, then CPU, each able
      only to raise the overall status. */
  method DetailedHealth(db: DbProbe, memoryPercent: real, load: real, cpus: nat) returns (r: DetailedReport)
    ensures r.database == DatabaseLevel(db)
    ensures r.memory == MemoryCheck(memoryPercent)
    ensures r.cpu == if CpuOverloaded(load, cpus) then Warning else Ok
    ensures r.status == DetailedStatus(db, memoryPercent, load, cpus)
    ensures r.code == StatusCode(r.status)
    ensures r.success <==> r.status != Error
  {
    var status := Ok;
    var database := Ok;
    if db == PingOk {
      database := Ok;
    } else {
      database := Error;
      status := Error;
    }
    var memory := MemoryOk;
    if memoryPercent > 90.0 {
      memory := MemoryCritical;
      status := Error;
    } else if memoryPercent > 75.0 {
      memory := MemoryWarning;
      if status == Ok {
        status := Warning;
      }
    }
    var cpu := Ok;
    var overloaded := if cpus == 0 then load > 0.0 else load / cpus as real > 0.8;
    if overloaded {
      cpu := Warning;
      if status == Ok {
        status := Warning;
      }
    }
    var code := if status == Ok then 200 else if status == Warning then 200 else 503;
    r := DetailedReport(status, database, memory, cpu, code, status != Error);
  }

  datatype ReadinessReport = ReadinessReport(ready: bool, database: bool, dependencies: bool, code: int)

  /** GET /api/health/ready: ready exactly when every check passed; a ping
      that throws skips the remaining checks and answers 503. */
  method Readiness(db: DbProbe) returns (r: ReadinessReport)
    ensures r.ready <==> r.database && r.dependencies
    ensures r.ready <==> db == PingOk
    ensures r.database <==> db == PingOk
    ensures r.dependencies <==> db != PingFailed
    ensures r.code == if r.ready then 200 else 503
  {
    var database := false;
    var dependencies := false;
    if db == PingFailed {
      return ReadinessReport(false, database, dependencies, 503);
    }
    if db == PingOk {
      database := true;
    }
    dependencies := true;
    var ready := database && dependencies;
    r := ReadinessReport(ready, database, dependencies, if ready then 200 else 503);
  }
}
