/** Backoff over whole runs: how long a host is left alone follows from how its connects have ended. */
module ConnectBackoff {
  import opened Wrappers
  import opened Governor
  import opened ConnectProtocol
  import opened ConnectOutcomes

  predicate FailsOn(init: State, step: Step, host: Host) {
    step.Fail? && step.i < |init.tasks| && init.tasks[step.i].host == host
  }

  predicate SucceedsOn(init: State, step: Step, host: Host) {
    step.Succeed? && step.i < |init.tasks| && init.tasks[step.i].host == host
  }

  /** The connects that have failed on the host since the last one that succeeded there. */
  function FailuresInARow(init: State, steps: seq<Step>, host: Host): nat {
    if steps == [] then 0 else
    var earlier, last := steps[..|steps| - 1], steps[|steps| - 1];
    if SucceedsOn(init, last, host) then 0
    else FailuresInARow(init, earlier, host) + if FailsOn(init, last, host) then 1 else 0
  }

  function TwoTo(n: nat): nat {
    if n == 0 then 1 else 2 * TwoTo(n - 1)
  }

  /** 0.05 seconds after the first failure, twice as long after each further one, and 2 seconds at most. */
  function BackoffAfter(failures: nat): real {
    if failures == 0 then 0.0
    else if 0.05 * TwoTo(failures - 1) as real <= 2.0 then 0.05 * TwoTo(failures - 1) as real
    else 2.0
  }

  lemma {:induction false} TwoToGrows(n: nat)
    ensures 1 <= TwoTo(n)
  {
    if n > 0 {
      TwoToGrows(n - 1);
    }
  }

  lemma OneMoreFailure(failures: nat)
    ensures BackoffAfter(failures + 1) == NextBackoff(BackoffAfter(failures))
  {
    if failures > 0 {
      TwoToGrows(failures - 1);
      assert TwoTo(failures) == 2 * TwoTo(failures - 1);
    }
  }

  /** Only the end of a connect changes a backoff, and only that of its host. */
  predicate MovesBackoff(s: State, after: State, step: Step) {
    if step.Succeed? && step.i < |s.tasks| then after.gov.backoff == s.gov.backoff - {s.tasks[step.i].host}
    else if step.Fail? && step.i < |s.tasks| then
      var host := s.tasks[step.i].host;
      after.gov.backoff == s.gov.backoff[host := NextBackoff(BackoffOf(s.gov, host))]
    else after.gov.backoff == s.gov.backoff
  }

  lemma StepMovesBackoff(s: State, step: Step)
    requires 0.0 < s.bucket.rate && Enabled(s, step)
    ensures MovesBackoff(s, Apply(s, step), step)
  {
  }

  /** In every run, at any time, the backoff of a host is that of its failures in a row. */
  lemma {:induction false} BackoffFollowsFailures(init: State, steps: seq<Step>, host: Host)
    requires Initial(init) && After(init, steps).Some?
    ensures BackoffOf(After(init, steps).value.gov, host) == BackoffAfter(FailuresInARow(init, steps, host))
  {
    if steps != [] {
      var earlier, last := steps[..|steps| - 1], steps[|steps| - 1];
      BackoffFollowsFailures(init, earlier, host);
      RunsKeepTasks(init, earlier);
      StepMovesBackoff(After(init, earlier).value, last);
      BackoffNext(init, earlier, last, After(init, earlier).value, Apply(After(init, earlier).value, last), host);
      assert steps == earlier + [last];
    }
  }

  lemma BackoffNext(init: State, earlier: seq<Step>, last: Step, s: State, after: State, host: Host)
    requires MovesBackoff(s, after, last) && SameTasks(init, s) && (last.Tick? || last.i < |s.tasks|)
    requires BackoffOf(s.gov, host) == BackoffAfter(FailuresInARow(init, earlier, host))
    ensures BackoffOf(after.gov, host) == BackoffAfter(FailuresInARow(init, earlier + [last], host))
  {
    assert (earlier + [last])[..|earlier|] == earlier;
    OneMoreFailure(FailuresInARow(init, earlier, host));
  }

  // ---- the wait ----

  /** The task is neither refused by the guard nor over a budget. */
  predicate GoesAhead(s: State, i: nat) {
    && i < |s.tasks| && s.tasks[i].phase.Idle? && s.tasks[i].refusal == None
    && s.gov.scanCount < s.gov.limits.perScanBudget
    && CountOn(s.gov, s.tasks[i].host) < s.gov.limits.perHostBudget
  }

  /** The task is kept from the bucket until then. */
  predicate WaitsUntil(s: State, i: nat, time: real) {
    i < |s.tasks| && (s.tasks[i].phase == BackingOff(time) || s.tasks[i].phase.Finished? || time <= s.now)
  }

  lemma {:induction false} WaitIsKept(s: State, steps: seq<Step>, i: nat, time: real)
    requires 0.0 < s.bucket.rate && After(s, steps).Some? && WaitsUntil(s, i, time)
    ensures WaitsUntil(After(s, steps).value, i, time)
  {
    if steps != [] {
      var earlier, last := steps[..|steps| - 1], steps[|steps| - 1];
      WaitIsKept(s, earlier, i, time);
      StepKeepsWait(After(s, earlier).value, last, i, time);
    }
  }

  lemma StepKeepsWait(s: State, step: Step, i: nat, time: real)
    requires 0.0 < s.bucket.rate && Enabled(s, step) && WaitsUntil(s, i, time)
    ensures WaitsUntil(Apply(s, step), i, time)
  {
  }

  /** However the run goes on, a task that begins when its host has failed n times in a row takes no turn at the
      bucket before the backoff of n failures is over. */
  lemma BackoffIsWaitedOut(init: State, earlier: seq<Step>, i: nat, steps: seq<Step>)
    requires Initial(init) && After(init, earlier).Some? && GoesAhead(After(init, earlier).value, i)
    requires After(Apply(After(init, earlier).value, Begin(i)), steps).Some?
    requires Enabled(After(Apply(After(init, earlier).value, Begin(i)), steps).value, TurnOf(i))
    ensures var s := After(init, earlier).value;
            s.now + BackoffAfter(FailuresInARow(init, earlier, s.tasks[i].host))
            <= After(Apply(s, Begin(i)), steps).value.now
  {
    var s := After(init, earlier).value;
    RunsKeepTasks(init, earlier);
    BackoffFollowsFailures(init, earlier, init.tasks[i].host);
    WaitIsKept(Apply(s, Begin(i)), steps, i, s.now + BackoffOf(s.gov, init.tasks[i].host));
  }

  /** And no longer: at once with no failure, else as soon as that time has passed. */
  lemma BackoffEndsExactly(init: State, earlier: seq<Step>, i: nat, seconds: real)
    requires Initial(init) && After(init, earlier).Some? && GoesAhead(After(init, earlier).value, i) && 0.0 <= seconds
    ensures var s := After(init, earlier).value;
            var begun, failures := Apply(s, Begin(i)), FailuresInARow(init, earlier, s.tasks[i].host);
            && (begun.tasks[i].phase.Queued? <==> failures == 0)
            && (failures > 0 ==> (Enabled(Apply(begun, Tick(seconds)), Wake(i)) <==> BackoffAfter(failures) <= seconds))
            && Apply(begun, Tick(seconds)).now == s.now + seconds
  {
    RunsKeepTasks(init, earlier);
    var failures := FailuresInARow(init, earlier, init.tasks[i].host);
    BackoffFollowsFailures(init, earlier, init.tasks[i].host);
    if failures > 0 {
      TwoToGrows(failures - 1);
    }
  }
}
