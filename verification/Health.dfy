/** The two health machines: the application monitor (internal/monitor/health.go) and the proxy's
    three-strike flag (internal/proxy/health.go). Both are refined to functions of the whole history
    of check outcomes. */
module Health {

  const HEALTHY_THRESHOLD := 3
  const DOWN_THRESHOLD := 3
  const FAILURE_THRESHOLD := 3
  const SUCCESS_THRESHOLD := 3

  type History = seq<bool>

  /** How many checks at the end of the history had the outcome v. */
  function TrailingRun(h: History, v: bool): (n: nat)
    ensures n <= |h|
    ensures forall i :: |h| - n <= i < |h| ==> h[i] == v
    ensures n < |h| ==> h[|h| - n - 1] != v
  {
    if h == [] || h[|h| - 1] != v then 0 else 1 + TrailingRun(h[..|h| - 1], v)
  }

  // ---- Monitor ----

  datatype Status = Healthy | Degraded | Down | Unknown

  /** The failures that end with the most recent failure. */
  function LastFailureRun(h: History): nat {
    TrailingRun(h[..|h| - TrailingRun(h, true)], false)
  }

  /** The status as a function of the history. */
  function MonitorStatus(h: History): Status {
    if TrailingRun(h, true) >= HEALTHY_THRESHOLD then Healthy
    else if false !in h then Unknown
    else if LastFailureRun(h) >= DOWN_THRESHOLD then Down
    else Degraded
  }

  datatype AppId = AppId(n: int)

  datatype AppHealth = AppHealth(deploymentId: string, url: string, status: Status, lastCheck: int, lastSuccess: int,
                                 consecutiveOk: nat, consecutiveFail: nat, lastError: string)

  /** Status and counters are those of the history. */
  ghost predicate Tracks(a: AppHealth, h: History) {
    && a.status == MonitorStatus(h)
    && a.consecutiveOk == TrailingRun(h, true) && a.consecutiveFail == TrailingRun(h, false)
  }

  method Succeeded(a: AppHealth, now: int, ghost h: History) returns (s: AppHealth)
    requires Tracks(a, h)
    ensures Tracks(s, h + [true])
  {
    hide MonitorStatus, TrailingRun;
    s := a.(consecutiveOk := a.consecutiveOk + 1, consecutiveFail := 0,
            lastCheck := now, lastSuccess := now, lastError := "");
    if s.consecutiveOk >= HEALTHY_THRESHOLD { s := s.(status := Healthy); }
    AfterSuccess(h);
  }

  method FailedAgain(a: AppHealth, now: int, msg: string, ghost h: History) returns (s: AppHealth)
    requires Tracks(a, h)
    ensures Tracks(s, h + [false])
  {
    hide MonitorStatus, TrailingRun;
    s := a.(consecutiveFail := a.consecutiveFail + 1, consecutiveOk := 0, lastCheck := now, lastError := msg);
    if s.consecutiveFail >= DOWN_THRESHOLD { s := s.(status := Down); } else { s := s.(status := Degraded); }
    AfterFailure(h);
  }

  class Monitor {
    var targets: seq<AppId>
    var status: map<AppId, AppHealth>
    ghost var history: map<AppId, History>

    ghost predicate Valid()
      reads this
    {
      && status.Keys == history.Keys
      && (forall a :: a in targets <==> a in status)
      && (forall i, j :: 0 <= i < j < |targets| ==> targets[i] != targets[j])
      && (forall a :: a in status ==> Tracks(status[a], history[a]))
    }

    constructor ()
      ensures Valid() && targets == [] && history == map[]
    {
      targets, status, history := [], map[], map[];
    }

    method RegisterApp(app: AppId, deploymentId: string, url: string)
      requires Valid()
      modifies this
      ensures Valid()
      ensures history == if app in old(history) then old(history) else old(history)[app := []]
    {
      if app in targets { return; }
      targets := targets + [app];
      status := status[app := AppHealth(deploymentId, url, Unknown, 0, 0, 0, 0, "")];
      history := history[app := []];
    }

    method UnregisterApp(app: AppId)
      requires Valid()
      modifies this
      ensures Valid() && history == old(history) - {app}
    {
      hide Tracks;
      for i := 0 to |targets|
        invariant targets == old(targets) && status == old(status) && history == old(history)
        invariant app !in targets[..i]
      {
        if targets[i] == app {
          targets := targets[..i] + targets[i + 1..];
          break;
        }
      }
      status := status - {app};
      history := history - {app};
    }

    /** The status reported is the function of the history; checks of unknown applications are ignored. */
    method RecordSuccess(app: AppId, now: int)
      requires Valid()
      modifies this
      ensures Valid()
      ensures history == if app in old(history) then old(history)[app := old(history)[app] + [true]] else old(history)
    {
      hide Tracks;
      if app !in status { return; }
      var s := Succeeded(status[app], now, history[app]);
      status := status[app := s];
      history := history[app := history[app] + [true]];
    }

    method RecordFailure(app: AppId, now: int, msg: string)
      requires Valid()
      modifies this
      ensures Valid()
      ensures history == if app in old(history) then old(history)[app := old(history)[app] + [false]] else old(history)
    {
      hide Tracks;
      if app !in status { return; }
      var s := FailedAgain(status[app], now, msg, history[app]);
      status := status[app := s];
      history := history[app := history[app] + [false]];
    }
  }

  lemma RunAfter(h: History, v: bool, w: bool)
    ensures TrailingRun(h + [w], v) == if w == v then TrailingRun(h, v) + 1 else 0
  {
    assert (h + [w])[..|h|] == h;
  }

  lemma AfterSuccess(h: History)
    ensures TrailingRun(h + [true], true) == TrailingRun(h, true) + 1 && TrailingRun(h + [true], false) == 0
    ensures MonitorStatus(h + [true]) ==
            if TrailingRun(h, true) + 1 >= HEALTHY_THRESHOLD then Healthy else MonitorStatus(h)
  {
    hide TrailingRun;
    RunAfter(h, true, true);
    RunAfter(h, false, true);
    SameFailures(h);
    assert false in h + [true] <==> false in h;
  }

  lemma SameFailures(h: History)
    requires TrailingRun(h + [true], true) == TrailingRun(h, true) + 1
    ensures LastFailureRun(h + [true]) == LastFailureRun(h)
  {
    var n := TrailingRun(h, true);
    assert (h + [true])[..|h| + 1 - (n + 1)] == h[..|h| - n];
  }

  lemma AfterFailure(h: History)
    ensures TrailingRun(h + [false], false) == TrailingRun(h, false) + 1 && TrailingRun(h + [false], true) == 0
    ensures MonitorStatus(h + [false]) == if TrailingRun(h, false) + 1 >= DOWN_THRESHOLD then Down else Degraded
  {
    RunAfter(h, true, false);
    RunAfter(h, false, false);
    assert (h + [false])[..|h| + 1] == h + [false];
    assert (h + [false])[|h|] == false;
  }

  /** Three checks decide healthy: the status is healthy exactly if the last three succeeded. */
  lemma HealthyMeans(h: History)
    ensures MonitorStatus(h) == Healthy <==> |h| >= 3 && h[|h| - 1] && h[|h| - 2] && h[|h| - 3]
  {
  }

  /** Three checks decide down: after three failures in a row the status is down, whatever came before, and it
      stays down while at most two successes follow. */
  lemma DownMeans(h: History)
    ensures MonitorStatus(h) == Down <==> exists k :: DownSince(h, k)
  {
    var n := TrailingRun(h, true);
    var k := |h| - n;
    if MonitorStatus(h) == Down {
      assert DownSince(h, k);
    }
    forall j | DownSince(h, j) ensures MonitorStatus(h) == Down {
      assert j == k;
      assert h[..k][k - 1] == h[k - 1] && h[..k][k - 2] == h[k - 2] && h[..k][k - 3] == h[k - 3];
    }
  }

  predicate TripleAt(h: History, k: int, v: bool) {
    3 <= k <= |h| && h[k - 1] == v && h[k - 2] == v && h[k - 3] == v
  }

  /** Three failures up to position k, and then fewer than three checks, all successful. */
  predicate DownSince(h: History, k: int) {
    TripleAt(h, k, false) && |h| <= k + 2 && forall i :: k <= i < |h| ==> h[i]
  }

  // ---- Proxy ----

  /** The outcome of the most recent three checks in a row with one outcome; healthy before any. */
  function LastTriple(h: History): bool {
    if |h| < 3 then true
    else if h[|h| - 1] == h[|h| - 2] == h[|h| - 3] then h[|h| - 1]
    else LastTriple(h[..|h| - 1])
  }

  class Backend {
    var healthy: bool
    var lastCheck: int
    var failures: nat
    var successes: nat
    ghost var history: History

    ghost predicate Valid()
      reads this
    {
      && healthy == LastTriple(history)
      && failures == TrailingRun(history, false) && successes == TrailingRun(history, true)
    }

    constructor ()
      ensures Valid() && history == [] && healthy
    {
      healthy, lastCheck, failures, successes, history := true, 0, 0, 0, [];
    }

    method UpdateStatus(ok: bool, now: int)
      requires Valid()
      modifies this
      ensures Valid() && history == old(history) + [ok]
    {
      hide TrailingRun, LastTriple;
      lastCheck := now;
      RunAfter(history, true, ok);
      RunAfter(history, false, ok);
      TripleAfter(history, ok);
      if ok {
        failures := 0;
        successes := successes + 1;
        if !healthy && successes >= SUCCESS_THRESHOLD { healthy := true; }
      } else {
        successes := 0;
        failures := failures + 1;
        if healthy && failures >= FAILURE_THRESHOLD { healthy := false; }
      }
      history := history + [ok];
    }
  }

  lemma TripleAfter(h: History, v: bool)
    ensures LastTriple(h + [v]) == if TrailingRun(h, v) >= 2 then v else LastTriple(h)
  {
    var t := h + [v];
    assert t[..|h|] == h;
    assert |h| >= 2 ==> t[|t| - 2] == h[|h| - 1] && t[|t| - 3] == h[|h| - 2];
  }

  /** The flag is unhealthy exactly if three failures in a row were not followed by three successes in a row. */
  lemma {:induction false} UnhealthyMeans(h: History)
    ensures !LastTriple(h) <==>
              exists k :: TripleAt(h, k, false) && forall j :: k < j <= |h| ==> !TripleAt(h, j, true)
  {
    if |h| >= 3 {
      var init := h[..|h| - 1];
      UnhealthyMeans(init);
      assert forall k: int, v :: k < |h| ==> (TripleAt(h, k, v) <==> TripleAt(init, k, v));
      if h[|h| - 1] == h[|h| - 2] == h[|h| - 3] {
        if !h[|h| - 1] { assert TripleAt(h, |h|, false); } else { assert TripleAt(h, |h|, true); }
      }
    }
  }

  /** The two machines differ: one success after an outage leaves both as they were, but one failure
      degrades only the monitor. */
  lemma OneFailure(h: History)
    requires MonitorStatus(h) == Healthy
    ensures MonitorStatus(h + [false]) == Degraded && LastTriple(h + [false])
  {
    AfterFailure(h);
    HealthyMeans(h);
    assert (h + [false])[..|h|] == h;
  }
}
