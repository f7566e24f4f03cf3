/**
 * The simulated backend: two module-level variables (whether the service is down and
 * why) that the /simulate endpoints flip and /health reports.
 */
module BackendApp {
  import opened Prelude

  /** The JSON body /health answers with. */
  datatype HealthBody = StatusOk | StatusDown(reason: string)

  /** The JSON body the /simulate endpoints answer with. */
  datatype SimulateReply = SimulateReply(ok: bool, message: string, reason: Option<string>)

  /** The reason simulate_service_down stores when the request names none. */
  const DefaultDownReason := "Simulated outage"

  class Backend {
    var down: bool
    var reason: string

    /** SERVICE_DOWN = False, SERVICE_DOWN_REASON = "Maintenance mode" */
    constructor()
      ensures !down && reason == "Maintenance mode"
    {
      down := false;
      reason := "Maintenance mode";
    }

    /** GET /health */
    method Health() returns (status: int, body: HealthBody)
      ensures down ==> status == 503 && body == StatusDown(reason)
      ensures !down ==> status == 200 && body == StatusOk
    {
      if down {
        return 503, StatusDown(reason);
      }
      return 200, StatusOk;
    }

    /**
     * POST /simulate/service_down, with the `reason` query parameter when the caller
     * sends one; without it the handler's default reason is stored.
     */
    method SimulateServiceDown(requested: Option<string>) returns (reply: SimulateReply)
      modifies this
      ensures down
      ensures requested.Some? ==> reason == requested.value
      ensures requested.None? ==> reason == DefaultDownReason
      ensures reply == SimulateReply(true, "Service now returns 503 on /health", Some(reason))
    {
      var newReason := requested.GetOr(DefaultDownReason);
      down := true;
      reason := newReason;
      reply := SimulateReply(true, "Service now returns 503 on /health", Some(newReason));
    }

    /** POST /simulate/service_up: the stored reason is left as it was. */
    method SimulateServiceUp() returns (reply: SimulateReply)
      modifies this
      ensures !down && reason == old(reason)
      ensures reply == SimulateReply(true, "Service restored (200 on /health)", None)
    {
      down := false;
      reply := SimulateReply(true, "Service restored (200 on /health)", None);
    }
  }

  /** The number of CPU-burning workers simulate_cpu starts: max(1, n). */
  function WorkerCount(n: int): (k: int)
    ensures k >= 1
    ensures k >= n
    ensures k == n || k == 1
  {
    if n > 1 then n else 1
  }
}
