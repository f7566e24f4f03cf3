# MonitoringAlert core, modelled in Dafny

MonitoringAlert is a small SRE agent for a Windows host. One run works in four steps.

1. **Detect.** It probes a backend's `/health` endpoint, samples CPU and reads disk usage.
2. **Remediate.** For the first problem it finds, in a fixed priority order, it makes at most one safe remediation attempt:
   - a self-heal of the backend;
   - a sweep of the temp folder;
   - nothing at all for a CPU spike.
3. **Verify.** It measures again and calls the run resolved only if the second measurement is clear.
4. **Classify.** It classifies the incident against a CWE knowledge base loaded from an Excel workbook, falling back to a local map, and renders an HTML e-mail.

A simulated FastAPI backend, whose `/health` is toggled by two `/simulate` endpoints, lets the self-heal path be exercised end to end.

The project has one Dafny module per source file:

| file | module | models |
|---|---|---|
| `prelude.dfy` | `Prelude` | `Option`, the outcome of an HTTP call, and Python's `strip`, `lower`, `upper` and `str(int)` |
| `kb_loader.dfy` | `KbLoader` | header normalisation, column aliases, the list parser, sheet choice, the row fan-out into the incident → CWE table, `load_kb`'s cache decision, `lookup_vuln` |
| `windows_actions.dfy` | `WindowsActions` | the `clear_temp` counting sweep and the `try_backend_recover` decision tree |
| `windows_monitors.dfy` | `WindowsMonitors` | the `cpu_high_for` sampling loop and `top_cpu_processes` (stable descending sort, truncation) |
| `http_monitors.dfy` | `HttpMonitors` | `check_http_endpoint` and the `monitor_endpoints` filter loop |
| `backend_app.dfy` | `BackendApp` | the simulated backend as a class with the two module globals as fields |
| `email_template.dfy` | `EmailTemplate` | the HTML escaper, badges, subject line, list rendering and the CWE block |
| `config.dfy` | `Config` | the agent's configuration record and its defaults |
| `agent.dfy` | `Agent` | the health classifier, the fallback classification, the KB-or-local choice, and the `decide_and_act` pipeline |
| `scenarios.dfy` | `Scenarios` | whole runs: the self-heal against the simulated backend, a sweep that does not free the disk, and a CPU spike |

Every probe of the outside world is an input value:

- an HTTP call is `Answered(status, text, elapsedMs)` or `Raised(error)`;
- CPU readings are a sequence;
- each enumerated process either answers or raises;
- each temp entry either can be deleted or fails;
- the workbook is a list of sheets of rows, and each row maps a column name to the stringified cell.

`DecideAndAct` also returns the sequence of probes and actions it performed, so "the CPU and disk are never looked at" is a statement about that trace.

## Model

| member | source | states |
|---|---|---|
| Prelude.StripLeftSpec | backend/kb/kb_loader.py:28 | `lstrip` removes exactly the leading whitespace: the result is a suffix, everything removed is whitespace, and the result does not start with whitespace |
| Prelude.StripRightSpec | backend/kb/kb_loader.py:28 | `rstrip` removes exactly the trailing whitespace |
| Prelude.StripSpec | backend/kb/kb_loader.py:28 | `strip` returns a contiguous slice with no whitespace at either end; it is empty iff the input is all whitespace |
| Prelude.StripOfStripped | backend/kb/kb_loader.py:47 | stripping a string with no whitespace at either end changes nothing |
| Prelude.Lower | backend/kb/kb_loader.py:28 | lower-cases each ASCII letter and keeps every other character |
| Prelude.Upper | backend/templates/email_template.py:146 | upper-cases each ASCII letter and keeps every other character |
| Prelude.IntToString | backend/monitors/http_monitors.py:16 | `str(n)`: the digits of the absolute value of `n`, behind a minus sign exactly when `n` is negative |
| Prelude.NatToStringValue | backend/monitors/http_monitors.py:16 | the digits of a natural number's rendering denote that number, with no leading zero |
| Prelude.IntToStringValue | backend/monitors/http_monitors.py:16 | round trip: the rendering of any int reads back as that int, and it is `0` only for zero |
| KbLoader.Normalize | backend/kb/kb_loader.py:27-28 | the normalised header contains only `[a-z0-9]` and is never longer than the input |
| KbLoader.NormalizeIsStripLowerFilter | backend/kb/kb_loader.py:28 | normalising equals strip, then lower, then dropping every character outside `[a-z0-9]` |
| KbLoader.NormalizeIdempotent | backend/kb/kb_loader.py:27-28 | normalising twice gives the same result as normalising once |
| KbLoader.NormIndexSpec | backend/kb/kb_loader.py:32 | the normalised-name index holds a key iff some column normalises to it, and then maps it to the LAST such column |
| KbLoader.FirstMatchColSpec | backend/kb/kb_loader.py:31-37 | no match iff no candidate matches any column; otherwise the result is the column for the earliest matching candidate, the last column among equal normalisations |
| KbLoader.GuessSheet | backend/kb/kb_loader.py:50-55 | the first sheet whose normalised name is `cwemapping`, `cwe`, `vulnerabilitymapping` or `kb`, else sheet 0; there is no sheet only when the workbook has none |
| KbLoader.ParseList | backend/kb/kb_loader.py:40-47 | `[]` for a missing or blank cell; every item is non-empty, stripped and free of commas, semicolons, pipe characters and newlines |
| KbLoader.ParseListJoin | backend/kb/kb_loader.py:40-47 | round trip: parsing `"; "`-joined clean items gives back exactly those items, in order |
| KbLoader.IncidentsOf | backend/kb/kb_loader.py:152-157 | a row always yields at least one incident label: the cell's parsed labels, each non-empty and stripped, or `Unknown Incident` alone (always so when there is no incident column) |
| KbLoader.RowKeysAt | backend/kb/kb_loader.py:159-164 | each label's key is the stripped label, or `"Unknown Incident"` when it is blank |
| KbLoader.AddLabelsSpec | backend/kb/kb_loader.py:159-171 | fan-out: after a row, every one of its keys maps to that row's entry; every other key keeps its old value |
| KbLoader.WithFallback | backend/kb/kb_loader.py:173-182 | the result always has `"Unknown Incident"`; every key already present keeps its entry; no other key is added |
| KbLoader.AccumulateSpec | backend/kb/kb_loader.py:141-171 | a key is in the table iff some accepted row carries it, and it maps to the entry of the LAST such row |
| KbLoader.MappingOfSpec | backend/kb/kb_loader.py:141-171 | the same statement over the sheet's rows: a key maps to the entry of the last row that names it, and no later row names it |
| KbLoader.AcceptedEntryWellFormed | backend/kb/kb_loader.py:142-167 | an accepted row has a non-blank, non-`nan` CWE code and a title and description that are not empty: each is its stripped cell, or `N/A` when that is blank or the column is missing (an empty cell reads as `nan`, so its title is `nan`) |
| KbLoader.EntrySource | backend/kb/kb_loader.py:169 | every entry built from a row records the workbook it came from |
| KbLoader.LoadedEntriesWellFormed | backend/kb/kb_loader.py:141-182 | every entry of the final table, the fallback included, has a real CWE code, a title and a description |
| KbLoader.LastRowFansOut | backend/kb/kb_loader.py:159-171 | the last row overwrites earlier rows for each of its keys |
| KbLoader.EmptyRowSkipped | backend/kb/kb_loader.py:87-144 | a row whose every cell is `nan` is skipped |
| KbLoader.DropEmptyRowsIrrelevant | backend/kb/kb_loader.py:87 | dropping all-empty rows first does not change the table |
| KbLoader.AddRowLabels | backend/kb/kb_loader.py:159-171 | the inner label loop computes the fan-out `AddLabels` |
| KbLoader.MappingOfStep | backend/kb/kb_loader.py:141-171 | one more row extends the table by that row's fan-out, or leaves it unchanged when the row is skipped |
| KbLoader.BuildMapping | backend/kb/kb_loader.py:141-182 | the row loop, then the fallback insertion, compute `WithFallback(MappingOf(rows))` |
| KbLoader.SheetNames | backend/kb/kb_loader.py:52 | the sheet names, in workbook order |
| KbLoader.ChosenSheet | backend/kb/kb_loader.py:82-83 | the chosen sheet is one of the workbook's sheets, and there is one unless the workbook has none |
| KbLoader.SheetLoad | backend/kb/kb_loader.py:90-184 | the load fails iff the sheet has no CWE column, naming the sheet; otherwise the table is the row loop's table of that sheet plus the fallback, each entry's source being `file::sheet` |
| KbLoader.ExcelLoadOf | backend/kb/kb_loader.py:73-184 | an unreadable file or a workbook without sheets fails; otherwise the result is that of the chosen sheet, so a missing CWE column fails and a loaded table always has `"Unknown Incident"` |
| KbLoader.LoadKbFromExcel | backend/kb/kb_loader.py:73-184 | the method computes `ExcelLoadOf` |
| KbLoader.LoadKb | backend/kb/kb_loader.py:187-210 | a failure to create the cache directory fails the load before anything else; otherwise it downloads iff `refresh` is set or nothing is cached; a failed download or load gives `ok=False` with an empty table and an error; success carries the loaded table and the local path |
| KbLoader.LookupVuln | backend/kb/kb_loader.py:213-230 | total lookup: the exact key, else `"Unknown Incident"`, else the `KB Unavailable / Lookup Failed` record; the result is always a table entry or that record |
| KbLoader.LookupInLoadedTable | backend/kb/kb_loader.py:141-230 | looking up a loaded table gives the last row naming the type, otherwise the table's `"Unknown Incident"`, and never the unavailability record |
| KbLoader.FanOutExample | backend/kb/kb_loader.py:152-171 | every label of a single row classifies to that row's CWE code |
| KbLoader.EmptyIncidentCellFiledUnderNan | backend/kb/kb_loader.py:152-164 | an empty incident cell, which pandas reads as `nan`, is filed under the key `"nan"`, not under `"Unknown Incident"` |
| WindowsActions.TempDir | backend/actions/windows_actions.py:16 | the swept folder is `TEMP` when it is set, else `C:\Windows\Temp` |
| WindowsActions.Survivors | backend/actions/windows_actions.py:20-28 | the entries left after a sweep are exactly the ones whose deletion failed, as many as were not removed |
| WindowsActions.ClearTemp | backend/actions/windows_actions.py:12-30 | `removed` counts the deletable entries, `removed + failed` is the number enumerated, the action is `clear_temp` and the folder is `TempDir` |
| WindowsActions.DeletableAppend | backend/actions/windows_actions.py:20-28 | the removal count over a concatenation is the sum of the counts |
| WindowsActions.FailuresDoNotStopSweep | backend/actions/windows_actions.py:20-28 | failures before an entry do not change how many later entries are removed |
| WindowsActions.NothingDeletableSurvives | backend/actions/windows_actions.py:20-28 | when no entry can be deleted, the directory is left exactly as listed |
| WindowsActions.RecoverAnswered | backend/actions/windows_actions.py:60-80 | 503: `service_up` is called and `ok` iff it answered below 400; 200: `ok` with no action; any other status: not `ok`, no action; never a launch |
| WindowsActions.RecoverUnreachable | backend/actions/windows_actions.py:81-118 | the launch happens iff it can; `ok` iff it launched and the single re-probe answered 200; `service_up` is not called |
| WindowsActions.TryBackendRecover | backend/actions/windows_actions.py:54-118 | the whole decision tree: the action is always `backend_self_heal`, and a process is launched only when the first probe raised |
| WindowsMonitors.CpuHighFor | backend/monitors/windows_monitors.py:4-28 | true iff every one of `max(0, duration)` samples is at or above the threshold; on false it stopped right after the first low sample |
| WindowsMonitors.Insert | backend/monitors/windows_monitors.py:42 | inserting keeps every element: length and multiset grow by exactly the new element |
| WindowsMonitors.SortByCpuDesc | backend/monitors/windows_monitors.py:42 | the sort is a permutation of its input |
| WindowsMonitors.InsertSorted | backend/monitors/windows_monitors.py:42 | inserting into a descending list keeps it descending |
| WindowsMonitors.SortIsSorted | backend/monitors/windows_monitors.py:42 | the sort orders by descending cpu |
| WindowsMonitors.InsertStable | backend/monitors/windows_monitors.py:42 | insertion keeps the relative order of equal readings |
| WindowsMonitors.SortIsStable | backend/monitors/windows_monitors.py:42 | stability: the processes with any given reading appear in the output in enumeration order |
| WindowsMonitors.TakePrefix | backend/monitors/windows_monitors.py:43 | `procs[:n]` with Python slice bounds, including a negative `n` |
| WindowsMonitors.TopCpuProcesses | backend/monitors/windows_monitors.py:34-43 | the answer is the first `n` of the stably sorted answering processes: at most `n`, in descending order |
| WindowsMonitors.TopAreAnswered | backend/monitors/windows_monitors.py:34-43 | every reported process answered the sampling |
| WindowsMonitors.VanishedSkipped | backend/monitors/windows_monitors.py:37-41 | a process that raised while being sampled is skipped |
| HttpMonitors.CheckHttpEndpoint | backend/monitors/http_monitors.py:4-18 | healthy iff the call answered 200; otherwise unhealthy with error `Status N`, or with the exception text and no response time |
| HttpMonitors.IncidentFor | backend/monitors/http_monitors.py:29-33 | every incident is `HTTP Endpoint Down` with severity `HIGH` |
| HttpMonitors.IncidentsFor | backend/monitors/http_monitors.py:25-35 | never more incidents than endpoints |
| HttpMonitors.MonitorEndpoints | backend/monitors/http_monitors.py:20-35 | the loop computes `IncidentsFor` |
| HttpMonitors.IncidentsForAppend | backend/monitors/http_monitors.py:26-34 | the incidents of two endpoint lists are the concatenation, in order |
| HttpMonitors.OneIncidentPerDownEndpoint | backend/monitors/http_monitors.py:27-34 | a healthy endpoint yields no incident; an unhealthy one yields exactly its own |
| HttpMonitors.CountDown | backend/monitors/http_monitors.py:28 | the number of unhealthy endpoints is at most the number of endpoints |
| HttpMonitors.IncidentsCountAndShape | backend/monitors/http_monitors.py:26-34 | one incident per unhealthy endpoint, each `HTTP Endpoint Down` / `HIGH` |
| BackendApp.Backend.constructor | backend/backend_app.py:22-23 | starts up, with reason `Maintenance mode` |
| BackendApp.Backend.Health | backend/backend_app.py:26-30 | 503 with `DOWN` and the current reason iff down, else 200 `OK` |
| BackendApp.Backend.SimulateServiceDown | backend/backend_app.py:33-38 | down, storing exactly the reason the request gives, or `Simulated outage` when it gives none, and the fixed reply naming the stored reason |
| BackendApp.Backend.SimulateServiceUp | backend/backend_app.py:41-45 | up, the reason unchanged (so a repeat changes nothing), and the fixed reply |
| BackendApp.WorkerCount | backend/backend_app.py:59 | `max(1, n)`: at least one worker, and never fewer than asked |
| EmailTemplate.EscapeHtml | backend/templates/email_template.py:8-9 | `None` escapes to the empty string |
| EmailTemplate.EscapeHtmlIsPerChar | backend/templates/email_template.py:11-17 | the five-step replace chain equals escaping each character on its own, because `&` goes first |
| EmailTemplate.EscapeHtmlIsSafe | backend/templates/email_template.py:6-17 | the output has no `<`, `>`, `"` or `'`, and every `&` begins one of the five entities |
| EmailTemplate.EscapeRoundTrip | backend/templates/email_template.py:6-17 | unescaping the escaped text gives back the original |
| EmailTemplate.MakeBadge | backend/templates/email_template.py:20-42 | the badge has the requested tone and safe markup that reads as exactly its text |
| EmailTemplate.StatusBadge | backend/templates/email_template.py:146-152 | `RESOLVED` green, `BLOCKED` red, anything else gray with `UNKNOWN` for an empty status, in any case |
| EmailTemplate.SeverityBadge | backend/templates/email_template.py:155-161 | `HIGH`/`CRITICAL` red, `MEDIUM`/`WARN`/`WARNING` yellow, else gray; the label is the upper-cased severity, `INFO` when empty |
| EmailTemplate.SeverityIgnoresCase | backend/templates/email_template.py:155 | the severity's tone does not depend on its letter case |
| EmailTemplate.Subject | backend/templates/email_template.py:163 | the subject is, in order: the prefix, a space, the incident type, the pipe separator, the host, the pipe separator, and the upper-cased status |
| EmailTemplate.ReadListItems | backend/templates/email_template.py:62-75 | the `<li>` items of a rendered list read back as the items, in order |
| EmailTemplate.RenderListRoundTrip | backend/templates/email_template.py:58-75 | an empty list renders the placeholder; otherwise one `<li>` per escaped item, in order, and the rendering reads back as the original list |
| EmailTemplate.CveBadges | backend/templates/email_template.py:95-103 | no CVE badges for an empty list; otherwise at most 8, the first CVEs in order, each as a blue badge |
| EmailTemplate.CweBadgeAsWritten | backend/templates/email_template.py:92-111 | as written, the CWE badge reads as the ESCAPED code: it is escaped twice |
| EmailTemplate.RenderCweTableAsWritten | backend/templates/email_template.py:78-124 | the as-written block: empty for no classification, with the twice-escaped CWE badge |
| EmailTemplate.DoubleEscapedCwe | backend/templates/email_template.py:92-111 | for the code `&`, the reader of the as-written e-mail sees `&amp;` |
| EmailTemplate.RenderCweTable | backend/templates/email_template.py:78-124 | empty for no classification; otherwise the badge reads as the CWE code, title and description read as their text, and the CVEs are capped at 8 |
| EmailTemplate.CweTablesAgreeElsewhere | backend/templates/email_template.py:93-103 | the correction changes only the CWE badge |
| EmailTemplate.BuildEmail | backend/templates/email_template.py:127-217 | subject, status and severity badges as above; the attempts and steps read back as given; the CWE block; the host, the incident type and the details read back as given |
| Agent.CheckBackendHealth | backend/agent.py:29-40 | `ok` iff the status is 200; an answer carries its status and body text; an exception gives no status and `Unreachable: <error>` |
| Agent.GetVulnMappingFallback | backend/agent.py:43-58 | total: exact key, else `"Unknown Incident"`, else the local `CWE-1059` record |
| Agent.FallbackMatchesLookup | backend/agent.py:43-58 | the local fallback and the KB lookup agree whenever either key exists, and differ only in the default record |
| Agent.KbMappingOf | backend/agent.py:198-212 | the KB table is non-empty only when a KB URL is set and the load succeeded, and then it is the loaded table |
| Agent.ChooseVuln | backend/agent.py:232-237 | the KB lookup iff the KB table is non-empty, else the local fallback |
| Agent.LoadedKbClassifiesFromTable | backend/agent.py:198-237 | a successful load always classifies from the KB table |
| Agent.NoKbUsesLocalMap | backend/agent.py:198-237 | without a KB URL, or after a failed load, the local map classifies |
| Agent.ClassifyRun | backend/agent.py:232-237 | the run's incident is looked up under its own type string: in the KB table when that is non-empty, otherwise in the local map |
| Agent.BackendRunLooksUpItsType | backend/agent.py:232-237 | with a KB table loaded, a backend run is looked up under "Backend URL Unhealthy" |
| Agent.CpuRunLooksUpItsType | backend/agent.py:232-237 | with a KB table loaded, a CPU run is looked up under "CPU Spike" |
| Agent.DiskRunLooksUpItsType | backend/agent.py:232-237 | with a KB table loaded, a disk run is looked up under "Disk Usage High" |
| Agent.QuietRunLooksUpItsType | backend/agent.py:232-237 | with a KB table loaded, a run with no incident is looked up under "No Incident" |
| Agent.KindNamesDistinct | backend/agent.py:232-237 | different incident kinds are looked up under different keys |
| Agent.InitialEvidence | backend/agent.py:80-82 | `backend_health_before` is recorded iff a backend URL is configured, and nothing else |
| Agent.HandleBackendDown | backend/agent.py:84-115 | the backend branch: `Backend URL Unhealthy`/`HIGH`, one self-heal iff allowed, both health checks recorded, resolved iff the second check is ok |
| Agent.HandleCpuSpike | backend/agent.py:120-136 | the CPU branch: `CPU Spike`/`HIGH` with the top 5 processes, no attempt, blocked |
| Agent.HandleDiskHigh | backend/agent.py:141-170 | the disk branch: `Disk Usage High`/`MEDIUM`, one sweep iff allowed, both readings recorded, resolved iff the second reading is under the threshold |
| Agent.DecideAndAct | backend/agent.py:61-182 | first match wins: backend (when a URL is set and the probe is not ok), else CPU, else disk, else `No Incident`/`INFO`/resolved with `No action required.`, each with its exact trace of probes and actions |
| Agent.BackendRunStopsEarly | backend/agent.py:80-115 | a backend incident never samples CPU or reads the disk; `HIGH`, one attempt iff self-heal is allowed, both health checks in the evidence |
| Agent.BackendStatusIgnoresAttempt | backend/agent.py:97-108 | the status and next steps depend only on the second health check, never on the attempt's own `ok` |
| Agent.DiskRunJudgedBySecondReading | backend/agent.py:141-170 | `MEDIUM`, at most one attempt (present iff `allow_clear_temp`), both readings recorded, resolved iff the second reading is under the threshold |
| Agent.CpuRunOnlyReports | backend/agent.py:120-136 | a CPU spike is blocked with no attempt, whatever the policy allows, and no disk reading or action follows |
| Agent.HealthyProbeKept | backend/agent.py:80-182 | in every branch, `backend_health_before` is in the evidence iff a URL is set, and at most one attempt is made |
| Scenarios.Probe | backend/backend_app.py:26-30 | a probe of the simulated backend answers with the status it returned |
| Scenarios.SelfHealEndToEnd | backend/agent.py:80-115 | the backend is put into maintenance, the self-heal calls `service_up`, the second probe sees 200: resolved, with exactly probe, recover, probe |
| Scenarios.SweepDoesNotResolveFullDisk | backend/agent.py:141-168 | a sweep that removes every entry but leaves the disk over the threshold is blocked |
| Scenarios.CpuSpikeIsOnlyReported | backend/agent.py:120-136 | a sustained spike is reported with no attempt even though every action is allowed |
| Scenarios.StatusBadgeOfRun | backend/templates/email_template.py:146-152 | the status a run ends with is e-mailed as a green badge when resolved and a red one when blocked |
| Scenarios.SeverityBadgeOfRun | backend/templates/email_template.py:155-161 | the incident's severity is e-mailed red for `HIGH`, yellow for `MEDIUM` and gray for `INFO` |

## Left out

- Network, process and timing I/O are inputs rather than calls: `requests`, `subprocess`, `psutil`, `time.sleep` and the wall clock. Each becomes an outcome value or a sequence of readings.
- `download_file` (backend/kb/kb_loader.py:58-70) is a fetch outcome, either a workbook or an error.
- pandas parsing is not modelled: a workbook is a list of sheets of rows, and an empty cell is the text `nan`.
- Paths are plain strings, and `os.path.join` and `pathlib` normalisation are not modelled. The only path behaviour kept is that an empty `TEMP` renders as `.`.
- The HTML markup, inline styles and table layout of the e-mail are not modelled. Each part of the body is a field, and the model states what a reader sees in it.
- An incident's `details` text is a structured `IncidentDetails` value. The Python `repr` of dicts, floats and tuples that the source formats into it is not modelled.
- Remediation attempts reach the e-mail as text: `str()` of the attempt dict is not modelled.
- The `timestamp` that `monitor_endpoints` stamps on each incident (`datetime.now()`) is not modelled. A response time is the probe outcome's `elapsedMs`, and a response body is the outcome's `text`, both taken as given.
- `cpu_high_for` assumes each `cpu_percent(interval=1)` reading takes exactly one second. The run's CPU readings must therefore hold at least `max(0, duration)` samples, which is why `DecideAndAct` has its one `requires`.
- Percentages and thresholds are `real`, used only in `<` and `>=` comparisons.
- `lower()` and `upper()` change ASCII letters only. `strip()` uses Python's full whitespace set.
- `re.split("[,\n;|]+")` is split on single delimiters. The empty pieces between consecutive delimiters are dropped afterwards in both versions, so the results are the same.
- `VULNERABILITY_MAP` comes from a module that is not part of this model. It is a parameter of the local fallback.
- Agent.LocalDefault: the local default record has no `keywords` or `source` key in the source. It is given `[]` and no source so that it shares the table's record type.
- A falsy classification, `None` or the empty dict, is represented as `None`.
- EmailTemplate.BuildEmail: builds the CWE block with the corrected `RenderCweTable`, not with the twice-escaped block that `build_email` renders at backend/templates/email_template.py:165. The as-written block is `RenderCweTableAsWritten`, and `CweTablesAgreeElsewhere` shows the two differ only in the CWE badge (see Findings).
- WindowsActions.ClearTemp: whether deleting an entry succeeds is fixed per entry for one sweep. A later sweep, which retries every survivor and may then succeed, is not modelled.
- `restart_service` is not modelled: it only forwards to a PowerShell call.
- `simulate_cpu`'s threads and worker processes are not modelled. Only its `max(1, n)` clamp is.
- These are not part of this model: the LLM client (`backend/llm/gemini_client.py`), e-mail sending and console output in `main`, `backend/agent/agent_manager.py`, `backend/models/schemas.py`, `backend/main.py`, `backend/monitors/backend_health.py`, and the Streamlit front end.
- `config.py` reads environment variables. The model keeps only the defaults (`Config.Defaults`).

## Findings

| source | as written | input that shows it | evidently intended | confidence | as-written member | corrected member |
|---|---|---|---|---|---|---|
| backend/templates/email_template.py:92-111 | the CWE code is escaped at line 92 and escaped again inside `_badge` (line 41) | the CWE code `&` is shown to the reader as `&amp;` | escape the code once, so that the badge reads as the code | not executed | EmailTemplate.DoubleEscapedCwe | EmailTemplate.RenderCweTable |
