/**
 * The agent's settings: one record with the field list of the configuration
 * dataclass and the values it takes when no environment variable overrides them.
 */
module Config {

  datatype AgentConfig = AgentConfig(
    hostLabel: string,
    toEmail: string,
    backendUrl: string,
    backendHost: string,
    backendPort: int,
    cpuThresholdPct: real,
    cpuDurationSeconds: int,
    diskThresholdPct: real,
    allowKillProcess: bool,
    allowClearTemp: bool,
    allowRestartService: bool,
    allowBackendSelfHeal: bool)

  /** The configuration with every environment variable unset. */
  const Defaults := AgentConfig(
    "windows-demo-host",
    "abhigyanpal98@gmail.com",
    "http://127.0.0.1:8000",
    "127.0.0.1",
    8000,
    20.0,
    3,
    20.0,
    false,
    true,
    true,
    true)
}
