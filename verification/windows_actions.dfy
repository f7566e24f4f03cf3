/**
 * Remediation actions: the best-effort sweep of the temp directory and the backend
 * self-heal decision tree. File-system deletion, HTTP calls and process launching are
 * inputs: each directory entry says whether deleting it succeeds, and each probe is an
 * HttpOutcome.
 */
module WindowsActions {
  import opened Prelude

  // ===========================================================================
  // clear_temp
  // ===========================================================================

  /** One entry of the temp directory as `glob("*")` lists it; `deletable` is whether rmtree/unlink succeeds. */
  datatype TempEntry = TempEntry(name: string, deletable: bool)

  datatype ClearTempResult = ClearTempResult(action: string, removed: nat, failed: nat, temp: string)

  const DefaultTemp := "C:\\Windows\\Temp"

  /** str(Path(os.environ.get("TEMP", default))): pathlib turns an empty path into ".". */
  function TempDir(tempEnv: Option<string>): (dir: string)
    ensures tempEnv.None? ==> dir == DefaultTemp
    ensures tempEnv.Some? && tempEnv.value != [] ==> dir == tempEnv.value
    ensures dir != []
  {
    match tempEnv
    case None => DefaultTemp
    case Some(t) => if t == [] then "." else t
  }

  /** How many entries the sweep deletes. */
  function Deletable(entries: seq<TempEntry>): (k: nat)
    ensures k <= |entries|
  {
    if entries == [] then 0
    else Deletable(entries[..|entries| - 1]) + (if entries[|entries| - 1].deletable then 1 else 0)
  }

  /** The entries left in the directory after the sweep, in listing order. */
  function Survivors(entries: seq<TempEntry>): (rest: seq<TempEntry>)
    ensures |rest| == |entries| - Deletable(entries)
    ensures forall k :: 0 <= k < |rest| ==> !rest[k].deletable
    ensures forall e {:trigger e in rest} :: e in rest <==> e in entries && !e.deletable
  {
    if entries == [] then []
    else
      var e := entries[|entries| - 1];
      Survivors(entries[..|entries| - 1]) + (if e.deletable then [] else [e])
  }

  /**
   * clear_temp: try every entry once; a failure is counted and the sweep goes on.
   * `remaining` is the directory listing afterwards.
   */
  method ClearTemp(tempEnv: Option<string>, entries: seq<TempEntry>)
    returns (r: ClearTempResult, remaining: seq<TempEntry>)
    ensures r.action == "clear_temp" && r.temp == TempDir(tempEnv)
    ensures r.removed == Deletable(entries)
    ensures r.removed + r.failed == |entries|
    ensures remaining == Survivors(entries) && |remaining| == r.failed
  {
    var removed := 0;
    var failed := 0;
    remaining := [];
    var i := 0;
    while i < |entries|
      invariant 0 <= i <= |entries|
      invariant removed == Deletable(entries[..i])
      invariant removed + failed == i
      invariant remaining == Survivors(entries[..i]) && |remaining| == failed
    {
      assert entries[..i + 1][..i] == entries[..i];
      if entries[i].deletable {
        removed := removed + 1;
      } else {
        failed := failed + 1;
        remaining := remaining + [entries[i]];
      }
      i := i + 1;
    }
    assert entries[..i] == entries;
    r := ClearTempResult("clear_temp", removed, failed, TempDir(tempEnv));
  }

  lemma {:induction false} DeletableAppend(a: seq<TempEntry>, b: seq<TempEntry>)
    ensures Deletable(a + b) == Deletable(a) + Deletable(b)
  {
    if b != [] {
      var n := |b| - 1;
      assert (a + b)[..|a + b| - 1] == a + b[..n];
      DeletableAppend(a, b[..n]);
    } else {
      assert a + b == a;
    }
  }

  /**
   * A failure never stops the sweep: whatever entries fail before it, every deletable
   * entry listed after them is still removed.
   */
  lemma FailuresDoNotStopSweep(before: seq<TempEntry>, after: seq<TempEntry>)
    requires forall k :: 0 <= k < |before| ==> !before[k].deletable
    ensures Deletable(before + after) == Deletable(after)
  {
    DeletableAppend(before, after);
    NothingDeletable(before);
  }

  lemma {:induction false} NothingDeletable(entries: seq<TempEntry>)
    requires forall k :: 0 <= k < |entries| ==> !entries[k].deletable
    ensures Deletable(entries) == 0
  {
    if entries != [] {
      NothingDeletable(entries[..|entries| - 1]);
    }
  }

  /** When nothing can be deleted, the directory is left exactly as listed. */
  lemma {:induction false} NothingDeletableSurvives(entries: seq<TempEntry>)
    requires forall k :: 0 <= k < |entries| ==> !entries[k].deletable
    ensures Survivors(entries) == entries
  {
    if entries != [] {
      var n := |entries| - 1;
      var init := entries[..n];
      NothingDeletableSurvives(init);
      assert init + [entries[n]] == entries;
    }
  }

  // ===========================================================================
  // try_backend_recover
  // ===========================================================================

  datatype RecoverResult = RecoverResult(action: string, ok: bool, details: string)

  /**
   * The remediation's answer together with what it did: whether it POSTed
   * /simulate/service_up and whether it launched a backend process.
   */
  datatype Recovery = Recovery(result: RecoverResult, calledServiceUp: bool, launched: bool)

  /** try_backend_recover when the first GET /health answered with `status`. */
  function RecoverAnswered(status: int, serviceUp: HttpOutcome): (r: Recovery)
    ensures r.result.action == "backend_self_heal" && !r.launched
    ensures status == 503 ==>
      r.calledServiceUp && (r.result.ok <==> serviceUp.Answered? && serviceUp.status < 400)
    ensures status == 200 ==> r.result.ok && !r.calledServiceUp
    ensures status != 503 && status != 200 ==> !r.result.ok && !r.calledServiceUp
  {
    var action := "backend_self_heal";
    if status == 503 then
      match serviceUp
      case Answered(upStatus, _, _) =>
        Recovery(RecoverResult(action, upStatus < 400,
          "Called /simulate/service_up (status=" + IntToString(upStatus) + ")"), true, false)
      case Raised(e) =>
        Recovery(RecoverResult(action, false,
          "Backend reachable but failed to call /simulate/service_up: " + e), true, false)
    else if status == 200 then
      Recovery(RecoverResult(action, true,
        "Backend already healthy (200 on /health). No action needed."), false, false)
    else
      Recovery(RecoverResult(action, false,
        "Backend returned unexpected status on /health: " + IntToString(status)), false, false)
  }

  /** try_backend_recover when the first GET /health raised: launch uvicorn, wait, probe once more. */
  function RecoverUnreachable(launch: Option<string>, recheck: HttpOutcome, port: int): (r: Recovery)
    ensures r.result.action == "backend_self_heal" && !r.calledServiceUp
    ensures r.launched <==> launch.None?
    ensures r.result.ok <==> launch.None? && recheck.Answered? && recheck.status == 200
  {
    var action := "backend_self_heal";
    match launch
    case Some(e) =>
      Recovery(RecoverResult(action, false, "Failed to start backend: " + e), false, false)
    case None =>
      match recheck
      case Raised(e) =>
        Recovery(RecoverResult(action, false, "Failed to start backend: " + e), false, true)
      case Answered(s, _, _) =>
        if s == 200 then
          Recovery(RecoverResult(action, true,
            "Started backend via uvicorn and health is OK (port " + IntToString(port) + ")."), false, true)
        else
          Recovery(RecoverResult(action, false,
            "Started backend but /health still not OK (status=" + IntToString(s) + ")."), false, true)
  }

  /**
   * try_backend_recover. `health` is the first GET /health, `serviceUp` the POST to
   * /simulate/service_up, `launch` the error of starting uvicorn (None when it starts),
   * `recheck` the GET /health after the two-second wait; each is consulted only on the
   * path that performs it. `launched` tells whether a backend process was started.
   */
  function TryBackendRecover(health: HttpOutcome, serviceUp: HttpOutcome, launch: Option<string>,
                             recheck: HttpOutcome, port: int): (r: Recovery)
    ensures r.result.action == "backend_self_heal"
    // 503: ask the backend to come back up; ok iff that call answered below 400
    ensures health.Answered? && health.status == 503 ==>
      r.calledServiceUp && !r.launched
      && (r.result.ok <==> serviceUp.Answered? && serviceUp.status < 400)
    // 200: nothing to do
    ensures health.Answered? && health.status == 200 ==>
      r.result.ok && !r.calledServiceUp && !r.launched
    // any other answer: give up, nothing launched
    ensures health.Answered? && health.status != 503 && health.status != 200 ==>
      !r.result.ok && !r.calledServiceUp && !r.launched
    // unreachable: launch, then ok iff the single re-probe answers 200
    ensures health.Raised? ==>
      !r.calledServiceUp && (r.launched <==> launch.None?)
      && (r.result.ok <==> launch.None? && recheck.Answered? && recheck.status == 200)
    ensures r.launched ==> health.Raised?
  {
    match health
    case Answered(status, _, _) => RecoverAnswered(status, serviceUp)
    case Raised(_) => RecoverUnreachable(launch, recheck, port)
  }
}
