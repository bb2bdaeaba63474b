/** Work budgets under concurrency. A budget is checked before the awaits of `_acquire` and charged after
    them, so it is exact only up to the number of tasks in between. */
module ConnectBudget {
  import opened Wrappers
  import opened Counting
  import opened FanOuts
  import opened Governor
  import opened ConnectProtocol

  // ---- the bound for any driver ----

  /** At no point of the run are more than `width` tasks between the check and the charge. */
  ghost predicate FewInFlight(init: State, steps: seq<Step>, width: nat)
    requires 0.0 < init.bucket.rate
  {
    forall k | 0 <= k <= |steps| ::
      After(init, steps[..k]).Some? ==> Count(After(init, steps[..k]).value.tasks, InFlight) <= width
  }

  /** Charged plus in flight: what the scan can still come to. */
  ghost predicate WithinOvershoot(s: State, width: nat) {
    && s.gov.scanCount + Count(s.tasks, InFlight) <= s.gov.limits.perScanBudget + width - 1
    && forall host :: HostWithinOvershoot(s, width, host)
  }

  predicate HostWithinOvershoot(s: State, width: nat, host: Host) {
    CountOn(s.gov, host) + Count(s.tasks, InFlightOn(host)) <= s.gov.limits.perHostBudget + width - 1
  }

  /** How a step moves the charge of a task: it passes the check, is charged, or gives up. */
  predicate MovesCharge(s: State, after: State, i: nat) {
    && i < |s.tasks| == |after.tasks| && after.tasks == s.tasks[i := after.tasks[i]]
    && var t, moved := s.tasks[i], after.tasks[i];
    && moved.host == t.host && after.gov.limits == s.gov.limits
    && (after.gov.scanCount, after.gov.hostCounts) ==
       (if Pending(moved) && !Pending(t)
        then (s.gov.scanCount + 1, s.gov.hostCounts[t.host := CountOn(s.gov, t.host) + 1])
        else (s.gov.scanCount, s.gov.hostCounts))
    && (Pending(moved) && !Pending(t) ==> InFlight(t))
    && (InFlight(moved) && !InFlight(t) ==> BudgetCheck(s.gov, t.host) == None)
  }

  lemma StepMovesCharge(s: State, step: Step)
    requires 0.0 < s.bucket.rate && Enabled(s, step) && !step.Tick?
    ensures MovesCharge(s, Apply(s, step), step.i)
  {
  }

  lemma {:induction false} CountFewer<T>(s: seq<T>, p: T -> bool, q: T -> bool)
    requires forall x :: p(x) ==> q(x)
    ensures Count(s, p) <= Count(s, q)
  {
    if s != [] {
      CountFewer(s[..|s| - 1], p, q);
    }
  }

  lemma ScanOvershootKept(s: State, after: State, i: nat, width: nat)
    requires MovesCharge(s, after, i) && Count(after.tasks, InFlight) <= width
    requires s.gov.scanCount + Count(s.tasks, InFlight) <= s.gov.limits.perScanBudget + width - 1
    ensures after.gov.scanCount + Count(after.tasks, InFlight) <= after.gov.limits.perScanBudget + width - 1
  {
    CountUpdate(s.tasks, i, after.tasks[i], InFlight);
  }

  lemma HostOvershootKept(s: State, after: State, i: nat, width: nat, host: Host)
    requires MovesCharge(s, after, i) && Count(after.tasks, InFlight) <= width
    requires HostWithinOvershoot(s, width, host)
    ensures HostWithinOvershoot(after, width, host)
  {
    CountUpdate(s.tasks, i, after.tasks[i], InFlightOn(host));
    CountFewer(after.tasks, InFlightOn(host), InFlight);
  }

  lemma StepKeepsOvershoot(s: State, step: Step, width: nat)
    requires 0.0 < s.bucket.rate && Enabled(s, step) && WithinOvershoot(s, width)
    requires Count(Apply(s, step).tasks, InFlight) <= width
    ensures WithinOvershoot(Apply(s, step), width)
  {
    var after := Apply(s, step);
    if !step.Tick? {
      StepMovesCharge(s, step);
      ScanOvershootKept(s, after, step.i, width);
    }
    forall host
      ensures HostWithinOvershoot(after, width, host)
    {
      assert HostWithinOvershoot(s, width, host);
      if !step.Tick? {
        HostOvershootKept(s, after, step.i, width, host);
      }
    }
  }

  /** With at most `width` tasks in flight, no budget is exceeded by more than width - 1: with one task
      at a time the budgets are exact. */
  lemma {:induction false} OvershootBound(init: State, steps: seq<Step>, width: nat)
    requires Initial(init) && 1 <= width && After(init, steps).Some? && FewInFlight(init, steps, width)
    ensures WithinOvershoot(After(init, steps).value, width)
    ensures After(init, steps).value.gov.limits == init.gov.limits
  {
    if steps == [] {
      CountNone(init.tasks, InFlight);
      forall host
        ensures HostWithinOvershoot(init, width, host)
      {
        CountNone(init.tasks, InFlightOn(host));
      }
    } else {
      var earlier := steps[..|steps| - 1];
      assert forall k | 0 <= k <= |earlier| :: earlier[..k] == steps[..k];
      OvershootBound(init, earlier, width);
      assert steps[..|steps|] == steps;
      var before := After(init, earlier).value;
      StepKeepsOvershoot(before, steps[|steps| - 1], width);
      LimitsConstant(before, steps[|steps| - 1]);
    }
  }

  lemma LimitsConstant(s: State, step: Step)
    requires 0.0 < s.bucket.rate && Enabled(s, step)
    ensures Apply(s, step).gov.limits == s.gov.limits && Apply(s, step).bucket.rate == s.bucket.rate
  {
  }

  /** A task that the guard does not refuse is turned away exactly if one of the budgets is used up when it
      begins. */
  lemma BudgetTurnsAwayExactly(s: State, i: nat)
    requires 0.0 < s.bucket.rate && Enabled(s, Begin(i)) && s.tasks[i].refusal == None
    ensures Apply(s, Begin(i)).tasks[i].phase == Finished(OverBudget) <==>
            || s.gov.limits.perScanBudget <= s.gov.scanCount
            || s.gov.limits.perHostBudget <= CountOn(s.gov, s.tasks[i].host)
  {
  }

  // ---- the bound for waves ----

  predicate Begun(s: State, j: int) {
    0 <= j < |s.tasks| && !s.tasks[j].phase.Idle?
  }

  predicate Over(s: State, j: int) {
    0 <= j < |s.tasks| && s.tasks[j].phase.Finished?
  }

  /** The step takes a task out of its first phase, by beginning or by cancelling it. */
  predicate Issues(s: State, step: Step) {
    !step.Tick? && step.i < |s.tasks| && s.tasks[step.i].phase.Idle?
  }

  /** The first job of the wave in which task `i` connects. */
  function WaveOf(plan: Plan, i: nat): nat
    requires i < |plan.jobOf|
  {
    StartOf(Sizes(plan), plan.jobOf[i])
  }

  /** Task `j` does not keep task `i` from beginning: if it has begun, it is in no later wave, and in an earlier
      wave or the same job it is over. */
  predicate Allows(s: State, plan: Plan, i: nat, j: int)
    requires |plan.jobOf| == |s.tasks| && i < |s.tasks|
  {
    Begun(s, j) && j != i ==>
      && WaveOf(plan, j) <= WaveOf(plan, i)
      && (WaveOf(plan, j) < WaveOf(plan, i) ==> Over(s, j))
      && (plan.jobOf[j] == plan.jobOf[i] ==> j < i && Over(s, j))
  }

  predicate MayBegin(s: State, plan: Plan, i: nat)
    requires |plan.jobOf| == |s.tasks| && i < |s.tasks|
  {
    forall j | 0 <= j < |s.tasks| :: Allows(s, plan, i, j)
  }

  /** The scan is run by fan-outs with waves of at most `width` jobs, one after another. A fan-out may be given
      up after any wave, and a job after any connect. */
  ghost predicate WaveRun(init: State, steps: seq<Step>, plan: Plan, width: nat)
    requires 0.0 < init.bucket.rate
  {
    && Fits(plan, |init.tasks|, width)
    && After(init, steps).Some?
    && forall k | 0 <= k < |steps| && After(init, steps[..k]).Some? ::
         Orderly(After(init, steps[..k]).value, steps[k], plan)
  }

  predicate Orderly(s: State, step: Step, plan: Plan) {
    Issues(s, step) ==> |plan.jobOf| == |s.tasks| && MayBegin(s, plan, step.i)
  }

  /** Two tasks that are both underway are in one wave and in different jobs. */
  predicate Apart(s: State, plan: Plan, i: int, j: int)
    requires |plan.jobOf| == |s.tasks|
  {
    Begun(s, i) && Begun(s, j) && i != j && !Over(s, i) && !Over(s, j) ==>
      WaveOf(plan, i) == WaveOf(plan, j) && plan.jobOf[i] != plan.jobOf[j]
  }

  ghost predicate InWaves(s: State, plan: Plan) {
    |plan.jobOf| == |s.tasks| && forall i, j :: Apart(s, plan, i, j)
  }

  lemma StepMovesOne(s: State, step: Step)
    requires 0.0 < s.bucket.rate && Enabled(s, step)
    ensures var after := Apply(s, step);
            && |after.tasks| == |s.tasks|
            && (forall j | 0 <= j < |s.tasks| && !(Issues(s, step) && j == step.i) && Begun(after, j) :: Begun(s, j))
            && (forall j | Over(s, j) :: Over(after, j))
  {
  }

  lemma StepKeepsWaves(s: State, step: Step, plan: Plan)
    requires 0.0 < s.bucket.rate && Enabled(s, step) && InWaves(s, plan) && Orderly(s, step, plan)
    ensures InWaves(Apply(s, step), plan)
  {
    StepMovesOne(s, step);
    var after := Apply(s, step);
    forall i, j
      ensures Apart(after, plan, i, j)
    {
      assert Apart(s, plan, i, j);
      if Issues(s, step) {
        assert 0 <= i < |s.tasks| ==> Allows(s, plan, step.i, i);
        assert 0 <= j < |s.tasks| ==> Allows(s, plan, step.i, j);
      }
    }
  }

  /** Tasks in flight are in one wave and in different jobs. */
  lemma WavesLimitInFlight(s: State, plan: Plan, width: nat)
    requires InWaves(s, plan) && Fits(plan, |s.tasks|, width)
    ensures Count(s.tasks, InFlight) <= width
  {
    CountPositive(s.tasks, InFlight);
    if Count(s.tasks, InFlight) > 0 {
      var i :| 0 <= i < |s.tasks| && InFlight(s.tasks[i]);
      SizesAreBounded(plan.cuts, width);
      forall j | 0 <= j < |s.tasks| && InFlight(s.tasks[j])
        ensures WaveOf(plan, i) <= plan.jobOf[j] < WaveOf(plan, i) + width
      {
        assert Begun(s, i) && Begun(s, j) && !Over(s, i) && !Over(s, j) && Apart(s, plan, i, j);
        StartBounds(Sizes(plan), plan.jobOf[j], width);
      }
      forall j, k | 0 <= j < k < |s.tasks| && InFlight(s.tasks[j]) && InFlight(s.tasks[k])
        ensures plan.jobOf[j] != plan.jobOf[k]
      {
        assert Begun(s, j) && Begun(s, k) && !Over(s, j) && !Over(s, k) && Apart(s, plan, j, k);
      }
      CountDistinct(s.tasks, InFlight, plan.jobOf, WaveOf(plan, i), width);
    }
  }

  lemma {:induction false} WaveRunStaysInWaves(init: State, steps: seq<Step>, plan: Plan, width: nat)
    requires Initial(init) && WaveRun(init, steps, plan, width)
    ensures InWaves(After(init, steps).value, plan) && FewInFlight(init, steps, width)
    ensures |After(init, steps).value.tasks| == |init.tasks|
  {
    if steps != [] {
      var earlier := steps[..|steps| - 1];
      assert forall k | 0 <= k <= |earlier| :: earlier[..k] == steps[..k];
      assert forall k | 0 <= k < |earlier| :: earlier[k] == steps[k];
      WaveRunStaysInWaves(init, earlier, plan, width);
      StepMovesOne(After(init, earlier).value, steps[|steps| - 1]);
      StepKeepsWaves(After(init, earlier).value, steps[|steps| - 1], plan);
    }
    WavesLimitInFlight(After(init, steps).value, plan, width);
    assert steps[..|steps|] == steps;
  }

  /** Over all fan-outs of a scan on its governor, the scan count never passes the scan budget by more than the
      largest wave size less one, and no host count passes its budget by more than that. */
  lemma WavesBoundOvershoot(init: State, steps: seq<Step>, plan: Plan, width: nat)
    requires Initial(init) && 1 <= width && WaveRun(init, steps, plan, width)
    ensures var g := After(init, steps).value.gov;
            && g.scanCount <= init.gov.limits.perScanBudget + width - 1
            && forall host :: CountOn(g, host) <= init.gov.limits.perHostBudget + width - 1
  {
    WaveRunStaysInWaves(init, steps, plan, width);
    OvershootBound(init, steps, width);
    forall host
      ensures CountOn(After(init, steps).value.gov, host) <= init.gov.limits.perHostBudget + width - 1
    {
      assert HostWithinOvershoot(After(init, steps).value, width, host);
    }
  }
}
