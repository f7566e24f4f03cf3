/**
 * The agent's decision pipeline: probe the backend, then the CPU, then the disk; the
 * first breach found becomes the run's incident, is remediated when policy allows,
 * re-measured, and returned with its status, guidance and evidence. Then the
 * classification of the incident: the knowledge base when one was loaded, the local
 * map otherwise.
 *
 * Every measurement the pipeline takes is an input (Observations); the `calls` trace
 * a run returns records which collectors and actions it invoked, in order.
 */
module Agent {
  import opened Prelude
  import opened Config
  import opened KbLoader
  import opened WindowsMonitors
  import opened WindowsActions

  // ===========================================================================
  // check_backend_health
  // ===========================================================================

  /** The dict check_backend_health returns. */
  datatype BackendHealth = BackendHealth(ok: bool, statusCode: Option<int>, details: string)

  /** Classify one GET {url}/health: ok only on 200; an exception leaves no status code. */
  function CheckBackendHealth(outcome: HttpOutcome): (h: BackendHealth)
    ensures h.ok <==> h.statusCode == Some(200)
    ensures outcome.Answered? ==> h.statusCode == Some(outcome.status) && h.details == outcome.text
    ensures outcome.Raised? ==> !h.ok && h.statusCode.None? && h.details == "Unreachable: " + outcome.error
  {
    match outcome
    case Answered(status, text, _) =>
      if status == 200 then BackendHealth(true, Some(200), text)
      else BackendHealth(false, Some(status), text)
    case Raised(e) => BackendHealth(false, None, "Unreachable: " + e)
  }

  // ===========================================================================
  // get_vuln_mapping_fallback and the KB-or-local choice
  // ===========================================================================

  /** The record used when the local map has neither the type nor "Unknown Incident". */
  function LocalDefault(): Classification {
    Classification("CWE-1059", "Insufficient Technical Impact Assessment",
      "Unable to classify incident type with available evidence.", [], [], None)
  }

  /** get_vuln_mapping_fallback over the local vulnerability map `localMap`. */
  function GetVulnMappingFallback(localMap: Mapping, incidentType: string): (r: Classification)
    ensures incidentType in localMap ==> r == localMap[incidentType]
    ensures incidentType !in localMap && UnknownIncident in localMap ==> r == localMap[UnknownIncident]
    ensures r == LocalDefault() || r in localMap.Values
    ensures r.cwe == "CWE-1059" || r in localMap.Values
  {
    if incidentType in localMap then localMap[incidentType]
    else if UnknownIncident in localMap then localMap[UnknownIncident]
    else LocalDefault()
  }

  /**
   * The local fallback and the KB lookup follow the same search order and differ
   * only in the record they answer with when both keys are missing.
   */
  lemma FallbackMatchesLookup(m: Mapping, incidentType: string)
    ensures incidentType in m || UnknownIncident in m ==>
      GetVulnMappingFallback(m, incidentType) == LookupVuln(incidentType, m)
    ensures incidentType !in m && UnknownIncident !in m ==>
      GetVulnMappingFallback(m, incidentType) == LocalDefault()
      && LookupVuln(incidentType, m) == KbUnavailable()
      && LocalDefault() != KbUnavailable()
  {
  }

  /** Where the classification came from: "KB" or "LOCAL_MAP". */
  datatype VulnSource = FromKb | FromLocalMap

  /** kb_mapping: the loaded table when a KB URL is set and loading succeeded, else empty. */
  function KbMappingOf(kbUrl: string, res: KbResult): (m: Mapping)
    ensures m != map[] ==> kbUrl != [] && res.ok && m == res.mapping
    ensures kbUrl != [] && res.ok ==> m == res.mapping
  {
    if kbUrl == [] then map[] else if res.ok then res.mapping else map[]
  }

  /** The KB answers when its table is non-empty; otherwise the local map does. */
  function ChooseVuln(kbMapping: Mapping, localMap: Mapping, incidentType: string)
    : (r: (Classification, VulnSource))
    ensures r.1 == FromKb <==> kbMapping != map[]
    ensures r.1 == FromKb ==> r.0 == LookupVuln(incidentType, kbMapping)
    ensures r.1 == FromLocalMap ==> r.0 == GetVulnMappingFallback(localMap, incidentType)
  {
    if kbMapping != map[] then (LookupVuln(incidentType, kbMapping), FromKb)
    else (GetVulnMappingFallback(localMap, incidentType), FromLocalMap)
  }

  /**
   * With a KB loaded, every incident is classified from the table itself (a loaded
   * table always holds "Unknown Incident"), never by the unavailability record.
   */
  lemma LoadedKbClassifiesFromTable(kbUrl: string, res: KbResult, localMap: Mapping, incidentType: string)
    requires kbUrl != [] && res.ok && UnknownIncident in res.mapping
    ensures ChooseVuln(KbMappingOf(kbUrl, res), localMap, incidentType).1 == FromKb
    ensures ChooseVuln(KbMappingOf(kbUrl, res), localMap, incidentType).0 in res.mapping.Values
  {
    assert UnknownIncident in KbMappingOf(kbUrl, res);
  }

  /** Without a KB URL, or when loading failed, the local map classifies. */
  lemma NoKbUsesLocalMap(kbUrl: string, res: KbResult, localMap: Mapping, incidentType: string)
    requires kbUrl == [] || !res.ok
    ensures ChooseVuln(KbMappingOf(kbUrl, res), localMap, incidentType)
      == (GetVulnMappingFallback(localMap, incidentType), FromLocalMap)
  {
  }

  // ===========================================================================
  // decide_and_act
  // ===========================================================================

  /** What the incident's details text is formatted from. */
  datatype IncidentDetails =
    | BackendDetails(url: string, before: BackendHealth)
    | CpuDetails(thresholdPct: real, durationSeconds: int, top: seq<ProcCpu>)
    | DiskDetails(pct: real, thresholdPct: real)
    | NoBreach

  /** The incident types decide_and_act reports. */
  datatype IncidentKind = BackendUnhealthy | CpuSpike | DiskUsageHigh | NoIncident

  /** The "type" string of each incident kind, the key its classification is looked up by. */
  function KindName(k: IncidentKind): string {
    match k
    case BackendUnhealthy => "Backend URL Unhealthy"
    case CpuSpike => "CPU Spike"
    case DiskUsageHigh => "Disk Usage High"
    case NoIncident => "No Incident"
  }

  datatype Severity = High | Medium | Info

  function SeverityName(s: Severity): string {
    match s
    case High => "HIGH"
    case Medium => "MEDIUM"
    case Info => "INFO"
  }

  datatype Incident = Incident(kind: IncidentKind, details: IncidentDetails, severity: Severity)

  /** One entry of the `attempts` list. */
  datatype Attempt = SelfHeal(recover: RecoverResult) | TempSweep(sweep: ClearTempResult)

  /** A value of the `evidence` dict. */
  datatype EvidenceValue = HealthValue(health: BackendHealth) | PctValue(pct: real)

  /** The keys of the `evidence` dict. */
  datatype EvidenceKey = HealthBefore | HealthAfter | DiskBefore | DiskAfter

  function KeyName(k: EvidenceKey): string {
    match k
    case HealthBefore => "backend_health_before"
    case HealthAfter => "backend_health_after"
    case DiskBefore => "disk_before"
    case DiskAfter => "disk_after"
  }

  type Evidence = map<EvidenceKey, EvidenceValue>

  /** The run's final status. */
  datatype Status = Resolved | Blocked

  function StatusName(s: Status): string {
    match s
    case Resolved => "resolved"
    case Blocked => "blocked"
  }

  /** What decide_and_act returns; its next_steps are StepsOf(guidance). */
  datatype RunResult = RunResult(
    incident: Incident,
    attempts: seq<Attempt>,
    status: Status,
    guidance: Guidance,
    evidence: Evidence)

  /** A collector or action invoked during a run. */
  datatype Call = ProbeHealth | RecoverBackend | SampleCpu | ListTopProcesses | ReadDisk | SweepTemp

  /**
   * Everything the run would measure: the two GET /health of the pipeline, the
   * probes and launch of the self-heal, the one-second CPU readings, the process
   * table, the two disk readings and the temp directory.
   */
  datatype Observations = Observations(
    healthBefore: HttpOutcome,
    recoverProbe: HttpOutcome,
    serviceUp: HttpOutcome,
    launch: Option<string>,
    recheck: HttpOutcome,
    healthAfter: HttpOutcome,
    cpuSamples: seq<real>,
    processes: seq<ProcSample>,
    diskBefore: real,
    diskAfter: real,
    tempEnv: Option<string>,
    tempEntries: seq<TempEntry>)

  const TopN := 5

  /** The fixed lists of next steps a run can end with; StepsOf gives their text. */
  datatype Guidance =
    | BackendRecovered(port: int)
    | BackendStillDown
    | CpuGuidance
    | DiskRecovered
    | DiskStillFull
    | NoAction

  /** The text of each list of next steps. */
  function StepsOf(g: Guidance): seq<string> {
    match g
    case BackendRecovered(port) =>
      ["If this repeats, verify the backend process is running and port " + IntToString(port) + " is open.",
       "Check Windows Firewall rules if URL is unreachable from other machines.",
       "Add this check to a scheduled run (Task Scheduler) for periodic monitoring."]
    case BackendStillDown =>
      ["Confirm backend_app.py exists and uvicorn is installed.",
       "Try starting manually: py -3.11 -m uvicorn backend_app:app --host 0.0.0.0 --port 8000",
       "Check if another process is already using the port."]
    case CpuGuidance =>
      ["Check Task Manager / Resource Monitor for top CPU processes.",
       "If a known service is misbehaving, restart that service (approved).",
       "Check recent deployments / scheduled tasks that could cause spikes."]
    case DiskRecovered =>
      ["If disk fills again quickly, check large folders (Downloads, Logs, AppData).",
       "Add log rotation / cleanup policy."]
    case DiskStillFull =>
      ["Identify largest directories (WinDirStat / Storage settings).",
       "Archive non-critical files or increase disk size."]
    case NoAction => ["No action required."]
  }

  /** The backend is configured and its first health check failed. */
  predicate BackendDown(cfg: AgentConfig, obs: Observations) {
    cfg.backendUrl != [] && !CheckBackendHealth(obs.healthBefore).ok
  }

  /** Every CPU reading within the configured duration is at or above the threshold. */
  predicate CpuSustained(cfg: AgentConfig, obs: Observations)
    requires |obs.cpuSamples| >= SampleBudget(cfg.cpuDurationSeconds)
  {
    AllHigh(obs.cpuSamples, SampleBudget(cfg.cpuDurationSeconds), cfg.cpuThresholdPct)
  }

  predicate DiskOver(cfg: AgentConfig, obs: Observations) {
    obs.diskBefore >= cfg.diskThresholdPct
  }

  /** The evidence recorded before any incident is chosen: the first health check, if made. */
  function InitialEvidence(cfg: AgentConfig, obs: Observations): (e: Evidence)
    ensures HealthBefore in e <==> cfg.backendUrl != []
    ensures HealthAfter !in e && DiskBefore !in e && DiskAfter !in e
  {
    if cfg.backendUrl != [] then map[HealthBefore := HealthValue(CheckBackendHealth(obs.healthBefore))]
    else map[]
  }

  /** The calls made before any incident is chosen: the first health check, if made. */
  function InitialCalls(cfg: AgentConfig): seq<Call> {
    if cfg.backendUrl != [] then [ProbeHealth] else []
  }

  // ---------------------------------------------------------------------------
  // What each branch returns
  // ---------------------------------------------------------------------------

  /** The backend branch: self-heal if allowed, then judge by the second probe alone. */
  predicate BackendOutcome(cfg: AgentConfig, obs: Observations, run: RunResult, calls: seq<Call>) {
    var before := CheckBackendHealth(obs.healthBefore);
    var after := CheckBackendHealth(obs.healthAfter);
    && run.incident == Incident(BackendUnhealthy, BackendDetails(cfg.backendUrl, before), High)
    && run.attempts == (if cfg.allowBackendSelfHeal
                        then [SelfHeal(TryBackendRecover(obs.recoverProbe, obs.serviceUp, obs.launch,
                                                         obs.recheck, cfg.backendPort).result)]
                        else [])
    && run.evidence == map[HealthBefore := HealthValue(before), HealthAfter := HealthValue(after)]
    && run.status == (if after.ok then Resolved else Blocked)
    && run.guidance == (if after.ok then BackendRecovered(cfg.backendPort) else BackendStillDown)
    && calls == [ProbeHealth] + (if cfg.allowBackendSelfHeal then [RecoverBackend] else []) + [ProbeHealth]
  }

  /** The CPU branch: report the top processes, never remediate. */
  predicate CpuOutcome(cfg: AgentConfig, obs: Observations, run: RunResult, calls: seq<Call>) {
    && run.incident == Incident(CpuSpike,
         CpuDetails(cfg.cpuThresholdPct, cfg.cpuDurationSeconds,
                    TakePrefix(SortByCpuDesc(WindowsMonitors.Answered(obs.processes)), TopN)), High)
    && run.attempts == []
    && run.status == Blocked
    && run.guidance == CpuGuidance
    && run.evidence == InitialEvidence(cfg, obs)
    && calls == InitialCalls(cfg) + [SampleCpu, ListTopProcesses]
  }

  /** The disk branch: record both readings, sweep if allowed, judge by the second reading alone. */
  predicate DiskOutcome(cfg: AgentConfig, obs: Observations, run: RunResult, calls: seq<Call>) {
    var cleared := obs.diskAfter < cfg.diskThresholdPct;
    && run.incident == Incident(DiskUsageHigh, DiskDetails(obs.diskBefore, cfg.diskThresholdPct), Medium)
    && run.attempts == (if cfg.allowClearTemp
                        then [TempSweep(ClearTempResult("clear_temp", Deletable(obs.tempEntries),
                                |obs.tempEntries| - Deletable(obs.tempEntries), TempDir(obs.tempEnv)))]
                        else [])
    && run.evidence == InitialEvidence(cfg, obs)[DiskBefore := PctValue(obs.diskBefore)]
                                                [DiskAfter := PctValue(obs.diskAfter)]
    && run.status == (if cleared then Resolved else Blocked)
    && run.guidance == (if cleared then DiskRecovered else DiskStillFull)
    && calls == InitialCalls(cfg) + [SampleCpu, ReadDisk]
                + (if cfg.allowClearTemp then [SweepTemp] else []) + [ReadDisk]
  }

  /** No breach: nothing to do. */
  predicate QuietOutcome(cfg: AgentConfig, obs: Observations, run: RunResult, calls: seq<Call>) {
    && run == RunResult(Incident(NoIncident, NoBreach, Info), [], Resolved, NoAction, InitialEvidence(cfg, obs))
    && calls == InitialCalls(cfg) + [SampleCpu, ReadDisk]
  }

  // ---------------------------------------------------------------------------
  // The branches, step by step
  // ---------------------------------------------------------------------------

  /**
   * The backend branch, entered with the first failed health check already in the
   * evidence and in the trace.
   */
  method HandleBackendDown(cfg: AgentConfig, obs: Observations, before: BackendHealth,
                           evidence: Evidence, callsSoFar: seq<Call>)
    returns (run: RunResult, calls: seq<Call>)
    requires BackendDown(cfg, obs) && before == CheckBackendHealth(obs.healthBefore)
    requires evidence == map[HealthBefore := HealthValue(before)] && callsSoFar == [ProbeHealth]
    ensures BackendOutcome(cfg, obs, run, calls)
  {
    var incident := Incident(BackendUnhealthy, BackendDetails(cfg.backendUrl, before), High);
    var attempts: seq<Attempt> := [];
    calls := callsSoFar;
    if cfg.allowBackendSelfHeal {
      var recovery := TryBackendRecover(obs.recoverProbe, obs.serviceUp, obs.launch, obs.recheck, cfg.backendPort);
      attempts := attempts + [SelfHeal(recovery.result)];
      calls := calls + [RecoverBackend];
    }
    var after := CheckBackendHealth(obs.healthAfter);
    calls := calls + [ProbeHealth];
    var ev := evidence[HealthAfter := HealthValue(after)];
    var status, guidance;
    if after.ok {
      status, guidance := Resolved, BackendRecovered(cfg.backendPort);
    } else {
      status, guidance := Blocked, BackendStillDown;
    }
    run := RunResult(incident, attempts, status, guidance, ev);
  }

  /** The CPU branch, entered once the readings stayed high. */
  method HandleCpuSpike(cfg: AgentConfig, obs: Observations, evidence: Evidence, callsSoFar: seq<Call>)
    returns (run: RunResult, calls: seq<Call>)
    requires evidence == InitialEvidence(cfg, obs) && callsSoFar == InitialCalls(cfg) + [SampleCpu]
    ensures CpuOutcome(cfg, obs, run, calls)
  {
    var tops := TopCpuProcesses(TopN, obs.processes);
    calls := callsSoFar + [ListTopProcesses];
    var incident := Incident(CpuSpike, CpuDetails(cfg.cpuThresholdPct, cfg.cpuDurationSeconds, tops), High);
    run := RunResult(incident, [], Blocked, CpuGuidance, evidence);
  }

  /** The disk branch, entered once the first reading is at or over the threshold. */
  method HandleDiskHigh(cfg: AgentConfig, obs: Observations, evidence: Evidence, callsSoFar: seq<Call>)
    returns (run: RunResult, calls: seq<Call>)
    requires evidence == InitialEvidence(cfg, obs) && callsSoFar == InitialCalls(cfg) + [SampleCpu, ReadDisk]
    ensures DiskOutcome(cfg, obs, run, calls)
  {
    var incident := Incident(DiskUsageHigh, DiskDetails(obs.diskBefore, cfg.diskThresholdPct), Medium);
    var attempts: seq<Attempt> := [];
    calls := callsSoFar;
    var ev := evidence[DiskBefore := PctValue(obs.diskBefore)];
    if cfg.allowClearTemp {
      var sweep, _ := ClearTemp(obs.tempEnv, obs.tempEntries);
      attempts := attempts + [TempSweep(sweep)];
      calls := calls + [SweepTemp];
    }
    var diskAfter := obs.diskAfter;
    calls := calls + [ReadDisk];
    ev := ev[DiskAfter := PctValue(diskAfter)];
    var status, guidance;
    if diskAfter < cfg.diskThresholdPct {
      status, guidance := Resolved, DiskRecovered;
    } else {
      status, guidance := Blocked, DiskStillFull;
    }
    run := RunResult(incident, attempts, status, guidance, ev);
  }

  /**
   * decide_and_act. The backend incident wins over the CPU incident, which wins over
   * the disk incident; each branch returns at once, so a later check is never run.
   */
  method DecideAndAct(cfg: AgentConfig, obs: Observations) returns (run: RunResult, calls: seq<Call>)
    requires |obs.cpuSamples| >= SampleBudget(cfg.cpuDurationSeconds)
    ensures BackendDown(cfg, obs) ==> BackendOutcome(cfg, obs, run, calls)
    ensures !BackendDown(cfg, obs) && CpuSustained(cfg, obs) ==> CpuOutcome(cfg, obs, run, calls)
    ensures !BackendDown(cfg, obs) && !CpuSustained(cfg, obs) && DiskOver(cfg, obs) ==>
      DiskOutcome(cfg, obs, run, calls)
    ensures !BackendDown(cfg, obs) && !CpuSustained(cfg, obs) && !DiskOver(cfg, obs) ==>
      QuietOutcome(cfg, obs, run, calls)
  {
    var evidence: Evidence := map[];
    calls := [];

    // Scenario 1: the backend
    if cfg.backendUrl != [] {
      var before := CheckBackendHealth(obs.healthBefore);
      calls := calls + [ProbeHealth];
      evidence := evidence[HealthBefore := HealthValue(before)];
      if !before.ok {
        run, calls := HandleBackendDown(cfg, obs, before, evidence, calls);
        return;
      }
    }
    assert evidence == InitialEvidence(cfg, obs) && calls == InitialCalls(cfg);

    // Scenario 2: sustained CPU
    var high, _ := CpuHighFor(cfg.cpuDurationSeconds, cfg.cpuThresholdPct, obs.cpuSamples);
    calls := calls + [SampleCpu];
    if high {
      run, calls := HandleCpuSpike(cfg, obs, evidence, calls);
      return;
    }

    // Scenario 3: the disk
    calls := calls + [ReadDisk];
    if obs.diskBefore >= cfg.diskThresholdPct {
      run, calls := HandleDiskHigh(cfg, obs, evidence, calls);
      return;
    }

    // No incident
    run := RunResult(Incident(NoIncident, NoBreach, Info), [], Resolved, NoAction, evidence);
  }

  // ---------------------------------------------------------------------------
  // Properties of a run
  // ---------------------------------------------------------------------------

  /** Every run ends in exactly one of the four outcomes, chosen by the priority order. */
  predicate RunOutcome(cfg: AgentConfig, obs: Observations, run: RunResult, calls: seq<Call>)
    requires |obs.cpuSamples| >= SampleBudget(cfg.cpuDurationSeconds)
  {
    if BackendDown(cfg, obs) then BackendOutcome(cfg, obs, run, calls)
    else if CpuSustained(cfg, obs) then CpuOutcome(cfg, obs, run, calls)
    else if DiskOver(cfg, obs) then DiskOutcome(cfg, obs, run, calls)
    else QuietOutcome(cfg, obs, run, calls)
  }

  /**
   * Once the backend is found down, neither the CPU nor the disk is looked at and no
   * temp sweep happens; exactly one attempt is made iff the self-heal is allowed, and
   * both health checks are in the evidence.
   */
  lemma BackendRunStopsEarly(cfg: AgentConfig, obs: Observations, run: RunResult, calls: seq<Call>)
    requires BackendOutcome(cfg, obs, run, calls)
    ensures SampleCpu !in calls && ReadDisk !in calls && SweepTemp !in calls
    ensures |run.attempts| == (if cfg.allowBackendSelfHeal then 1 else 0)
    ensures HealthBefore in run.evidence && HealthAfter in run.evidence
    ensures run.incident.severity == High
  {
  }

  /**
   * The status of a backend run follows the second probe alone: two runs whose
   * pipeline probes agree end with the same status, whatever the self-heal did.
   */
  lemma BackendStatusIgnoresAttempt(cfg: AgentConfig, obs1: Observations, obs2: Observations,
                                    run1: RunResult, calls1: seq<Call>, run2: RunResult, calls2: seq<Call>)
    requires BackendOutcome(cfg, obs1, run1, calls1) && BackendOutcome(cfg, obs2, run2, calls2)
    requires obs1.healthAfter == obs2.healthAfter
    ensures run1.status == run2.status && run1.guidance == run2.guidance
  {
  }

  /**
   * A disk run sweeps the temp directory iff the policy allows, records both readings,
   * and is resolved iff the second reading is under the threshold, so a sweep that
   * removed every entry still leaves it blocked when the disk stays full.
   */
  lemma DiskRunJudgedBySecondReading(cfg: AgentConfig, obs: Observations, run: RunResult, calls: seq<Call>)
    requires DiskOutcome(cfg, obs, run, calls)
    ensures |run.attempts| <= 1 && (|run.attempts| == 1 <==> cfg.allowClearTemp)
    ensures (SweepTemp in calls <==> cfg.allowClearTemp) && RecoverBackend !in calls
    ensures DiskBefore in run.evidence && DiskAfter in run.evidence
    ensures run.status == Resolved <==> obs.diskAfter < cfg.diskThresholdPct
    ensures run.incident.severity == Medium
  {
  }

  /** A CPU run is blocked, makes no attempt and never reads the disk, whatever the policy flags. */
  lemma CpuRunOnlyReports(cfg: AgentConfig, obs: Observations, run: RunResult, calls: seq<Call>)
    requires CpuOutcome(cfg, obs, run, calls)
    ensures run.status == Blocked && run.attempts == [] && run.incident.severity == High
    ensures ReadDisk !in calls && SweepTemp !in calls && RecoverBackend !in calls
  {
  }

  /**
   * Whichever branch returns after a healthy first probe, that probe stays in the
   * evidence; without a backend URL no health evidence is recorded at all.
   */
  lemma HealthyProbeKept(cfg: AgentConfig, obs: Observations, run: RunResult, calls: seq<Call>)
    requires |obs.cpuSamples| >= SampleBudget(cfg.cpuDurationSeconds)
    requires RunOutcome(cfg, obs, run, calls)
    ensures HealthBefore in run.evidence <==> cfg.backendUrl != []
    ensures HealthBefore in run.evidence ==>
      run.evidence[HealthBefore] == HealthValue(CheckBackendHealth(obs.healthBefore))
    ensures |run.attempts| <= 1
    ensures cfg.backendUrl != [] <==> |calls| > 0 && calls[0] == ProbeHealth
  {
  }

  // ===========================================================================
  // main: classifying the run
  // ===========================================================================

  /** The run's incident is classified under its "type" string, from the KB table first. */
  function ClassifyRun(kbMapping: Mapping, localMap: Mapping, run: RunResult): (r: (Classification, VulnSource))
    ensures kbMapping != map[] ==>
      r.1 == FromKb && r.0 == LookupVuln(KindName(run.incident.kind), kbMapping)
    ensures kbMapping == map[] ==>
      r == (GetVulnMappingFallback(localMap, KindName(run.incident.kind)), FromLocalMap)
  {
    ChooseVuln(kbMapping, localMap, KindName(run.incident.kind))
  }

  /** Each branch's run is looked up under the exact type string that branch reports. */
  lemma BackendRunLooksUpItsType(cfg: AgentConfig, obs: Observations, run: RunResult, calls: seq<Call>,
                                 kbMapping: Mapping, localMap: Mapping)
    requires kbMapping != map[] && BackendOutcome(cfg, obs, run, calls)
    ensures ClassifyRun(kbMapping, localMap, run) == (LookupVuln("Backend URL Unhealthy", kbMapping), FromKb)
  {
  }

  lemma CpuRunLooksUpItsType(cfg: AgentConfig, obs: Observations, run: RunResult, calls: seq<Call>,
                             kbMapping: Mapping, localMap: Mapping)
    requires kbMapping != map[] && CpuOutcome(cfg, obs, run, calls)
    ensures ClassifyRun(kbMapping, localMap, run) == (LookupVuln("CPU Spike", kbMapping), FromKb)
  {
  }

  lemma DiskRunLooksUpItsType(cfg: AgentConfig, obs: Observations, run: RunResult, calls: seq<Call>,
                              kbMapping: Mapping, localMap: Mapping)
    requires kbMapping != map[] && DiskOutcome(cfg, obs, run, calls)
    ensures ClassifyRun(kbMapping, localMap, run) == (LookupVuln("Disk Usage High", kbMapping), FromKb)
  {
  }

  lemma QuietRunLooksUpItsType(cfg: AgentConfig, obs: Observations, run: RunResult, calls: seq<Call>,
                               kbMapping: Mapping, localMap: Mapping)
    requires kbMapping != map[] && QuietOutcome(cfg, obs, run, calls)
    ensures ClassifyRun(kbMapping, localMap, run) == (LookupVuln("No Incident", kbMapping), FromKb)
  {
  }

  /** Different incident kinds are looked up under different keys. */
  lemma KindNamesDistinct(a: IncidentKind, b: IncidentKind)
    ensures KindName(a) == KindName(b) <==> a == b
  {
  }
}
