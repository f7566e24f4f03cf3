/**
 * Whole runs of the agent against the simulated backend and a concrete host: the
 * backend is put into maintenance, the agent finds it down, the self-heal asks it to
 * come back, and the second probe sees it healthy.
 */
module Scenarios {
  import opened Prelude
  import opened Config
  import opened WindowsActions
  import WindowsMonitors
  import opened BackendApp
  import opened Agent
  import EmailTemplate

  /** What a GET /health on the simulated backend looks like to a probe (the body text is not modelled). */
  function Probe(status: int): (o: HttpOutcome)
    ensures o.Answered? && o.status == status
  {
    Answered(status, "", 0.0)
  }

  /**
   * The backend is switched to 503; the first probe fails, the self-heal's own probe
   * sees 503 and POSTs /simulate/service_up, which the backend accepts; the
   * pipeline's second probe then sees 200 and the run is resolved.
   */
  method SelfHealEndToEnd() returns (run: RunResult, calls: seq<Call>)
    ensures run.incident.kind == BackendUnhealthy && run.incident.severity == High
    ensures run.status == Resolved && run.guidance == BackendRecovered(8000)
    ensures |run.attempts| == 1 && run.attempts[0].SelfHeal? && run.attempts[0].recover.ok
    ensures HealthBefore in run.evidence && HealthAfter in run.evidence
    ensures calls == [ProbeHealth, RecoverBackend, ProbeHealth]
  {
    var backend := new Backend();
    var _ := backend.SimulateServiceDown(Some("Maintenance mode"));

    var before, _ := backend.Health();
    assert before == 503;
    // the self-heal probes again, still 503, and calls service_up
    var recoverProbe, _ := backend.Health();
    var reply := backend.SimulateServiceUp();
    assert reply.ok;
    var after, _ := backend.Health();
    assert after == 200;

    // FastAPI answers a handler's returned dict with 200
    var serviceUp := Probe(if reply.ok then 200 else 500);
    var obs := Observations(
      Probe(before), Probe(recoverProbe), serviceUp, None, Raised("not probed"), Probe(after),
      [0.0, 0.0, 0.0], [], 0.0, 0.0, None, []);
    assert TryBackendRecover(obs.recoverProbe, obs.serviceUp, obs.launch, obs.recheck, 8000).result.ok;
    assert BackendDown(Defaults, obs);
    run, calls := DecideAndAct(Defaults, obs);
  }

  /**
   * A healthy backend, quiet CPU and a full disk: every temp entry is removed, yet the
   * second reading is still over the threshold, so the run is blocked; the healthy
   * first probe stays in the evidence.
   */
  method SweepDoesNotResolveFullDisk() returns (run: RunResult)
    ensures run.incident.kind == DiskUsageHigh && run.incident.severity == Medium
    ensures |run.attempts| == 1 && run.attempts[0].TempSweep? && run.attempts[0].sweep.failed == 0
    ensures run.status == Blocked
    ensures HealthBefore in run.evidence && DiskBefore in run.evidence && DiskAfter in run.evidence
  {
    var entries := [TempEntry("a.tmp", true), TempEntry("b.log", true)];
    var obs := Observations(
      Probe(200), Raised("not probed"), Raised("not probed"), None, Raised("not probed"), Raised("not probed"),
      [5.0, 50.0, 50.0], [], 91.5, 90.0, Some("C:\\Temp"), entries);
    assert WindowsMonitors.SampleBudget(Defaults.cpuDurationSeconds) == 3;
    assert obs.cpuSamples[0] < Defaults.cpuThresholdPct;
    assert !CpuSustained(Defaults, obs);
    assert entries[..1] == [TempEntry("a.tmp", true)];
    assert Deletable(entries) == 2;
    var calls;
    run, calls := DecideAndAct(Defaults, obs);
    DiskRunJudgedBySecondReading(Defaults, obs, run, calls);
  }

  /** A sustained spike is reported, never remediated, even though every action is allowed. */
  method CpuSpikeIsOnlyReported() returns (run: RunResult, calls: seq<Call>)
    ensures run.incident.kind == CpuSpike && run.status == Blocked && run.attempts == []
    ensures SweepTemp !in calls && RecoverBackend !in calls
  {
    var obs := Observations(
      Probe(200), Raised("not probed"), Raised("not probed"), None, Raised("not probed"), Raised("not probed"),
      [95.0, 97.5, 99.0], [], 99.0, 99.0, None, [TempEntry("a.tmp", true)]);
    assert CpuSustained(Defaults, obs);
    run, calls := DecideAndAct(Defaults, obs);
    CpuRunOnlyReports(Defaults, obs, run, calls);
  }

  /**
   * The template fallback of `main` e-mails a run's status under its name: a resolved
   * run gets a green status badge and a blocked one a red badge.
   */
  lemma StatusBadgeOfRun(status: Status)
    ensures EmailTemplate.StatusBadge(StatusName(status)).tone ==
      if status == Resolved then EmailTemplate.Green else EmailTemplate.Red
  {
    match status
    case Resolved =>
      assert Upper("resolved") == "RESOLVED";
    case Blocked =>
      assert Upper("blocked") == "BLOCKED";
  }

  /** The incident's severity badge: HIGH red, MEDIUM yellow, INFO gray. */
  lemma SeverityBadgeOfRun(severity: Severity)
    ensures EmailTemplate.SeverityBadge(SeverityName(severity)).tone ==
      match severity
      case High => EmailTemplate.Red
      case Medium => EmailTemplate.Yellow
      case Info => EmailTemplate.Gray
  {
    match severity
    case High =>
      assert Upper("HIGH") == "HIGH";
    case Medium =>
      assert Upper("MEDIUM") == "MEDIUM";
    case Info =>
      assert Upper("INFO") == "INFO";
  }
}
