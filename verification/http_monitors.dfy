/**
 * HTTP endpoint monitoring: one probe is classified healthy or unhealthy, and a list
 * of endpoints is filtered into incidents. Each GET is an input HttpOutcome; the
 * measured response time is the outcome's elapsed milliseconds.
 */
module HttpMonitors {
  import opened Prelude

  /** The dict check_http_endpoint returns; absent keys are None. */
  datatype EndpointCheck = EndpointCheck(status: string, responseTime: Option<real>, error: Option<string>)

  /** check_http_endpoint */
  function CheckHttpEndpoint(outcome: HttpOutcome): (r: EndpointCheck)
    ensures r.status == "healthy" <==> outcome.Answered? && outcome.status == 200
    ensures r.status != "healthy" ==> r.status == "unhealthy" && r.error.Some?
    ensures r.status == "healthy" ==> r.error.None?
    ensures outcome.Answered? ==> r.responseTime == Some(outcome.elapsedMs)
    ensures outcome.Answered? && outcome.status != 200 ==>
      r.error == Some("Status " + IntToString(outcome.status))
    ensures outcome.Raised? ==> r.responseTime.None? && r.error == Some(outcome.error)
  {
    match outcome
    case Answered(code, _, ms) =>
      if code == 200 then EndpointCheck("healthy", Some(ms), None)
      else EndpointCheck("unhealthy", Some(ms), Some("Status " + IntToString(code)))
    case Raised(e) => EndpointCheck("unhealthy", None, Some(e))
  }

  /** One incident of monitor_endpoints (its timestamp is not modelled). */
  datatype Incident = Incident(kind: string, details: string, severity: string)

  /** An endpoint URL together with what probing it produced. */
  datatype Probe = Probe(url: string, outcome: HttpOutcome)

  predicate Healthy(p: Probe) {
    CheckHttpEndpoint(p.outcome).status == "healthy"
  }

  /** The incident reported for an endpoint that is not healthy. */
  function IncidentFor(p: Probe): (inc: Incident)
    ensures inc.kind == "HTTP Endpoint Down" && inc.severity == "HIGH"
  {
    var r := CheckHttpEndpoint(p.outcome);
    Incident("HTTP Endpoint Down", "Endpoint " + p.url + " is " + r.status + ": " + r.error.GetOr(""), "HIGH")
  }

  /** The incidents for a list of probes, in input order. */
  function IncidentsFor(probes: seq<Probe>): (incs: seq<Incident>)
    ensures |incs| <= |probes|
  {
    if probes == [] then []
    else
      var p := probes[|probes| - 1];
      IncidentsFor(probes[..|probes| - 1]) + (if Healthy(p) then [] else [IncidentFor(p)])
  }

  /** monitor_endpoints */
  method MonitorEndpoints(probes: seq<Probe>) returns (incidents: seq<Incident>)
    ensures incidents == IncidentsFor(probes)
  {
    incidents := [];
    var i := 0;
    while i < |probes|
      invariant 0 <= i <= |probes|
      invariant incidents == IncidentsFor(probes[..i])
    {
      assert probes[..i + 1][..i] == probes[..i];
      var result := CheckHttpEndpoint(probes[i].outcome);
      if result.status != "healthy" {
        incidents := incidents + [Incident("HTTP Endpoint Down",
          "Endpoint " + probes[i].url + " is " + result.status + ": " + result.error.GetOr(""), "HIGH")];
      }
      i := i + 1;
    }
    assert probes[..i] == probes;
  }

  /** Incidents of a concatenation are the incidents of each part, in order. */
  lemma {:induction false} IncidentsForAppend(a: seq<Probe>, b: seq<Probe>)
    ensures IncidentsFor(a + b) == IncidentsFor(a) + IncidentsFor(b)
  {
    if b == [] {
      assert a + b == a;
    } else {
      var n := |b| - 1;
      assert (a + b)[..|a + b| - 1] == a + b[..n];
      IncidentsForAppend(a, b[..n]);
    }
  }

  /** A healthy endpoint contributes nothing; any other exactly one incident. */
  lemma OneIncidentPerDownEndpoint(p: Probe)
    ensures Healthy(p) ==> IncidentsFor([p]) == []
    ensures !Healthy(p) ==> IncidentsFor([p]) == [IncidentFor(p)]
  {
    assert [p][..0] == [];
  }

  function CountDown(probes: seq<Probe>): (k: nat)
    ensures k <= |probes|
  {
    if probes == [] then 0 else (if Healthy(probes[0]) then 0 else 1) + CountDown(probes[1..])
  }

  /** One incident per non-healthy endpoint, each typed "HTTP Endpoint Down" with severity "HIGH". */
  lemma {:induction false} IncidentsCountAndShape(probes: seq<Probe>)
    ensures |IncidentsFor(probes)| == CountDown(probes)
    ensures forall k :: 0 <= k < |IncidentsFor(probes)| ==>
      IncidentsFor(probes)[k].kind == "HTTP Endpoint Down" && IncidentsFor(probes)[k].severity == "HIGH"
  {
    if probes != [] {
      IncidentsCountAndShape(probes[1..]);
      assert probes == [probes[0]] + probes[1..];
      IncidentsForAppend([probes[0]], probes[1..]);
      OneIncidentPerDownEndpoint(probes[0]);
    }
  }
}
