/** The governor cannot block a scan: with a rate of at least one connection per second, some task can
    always go on, and every run has finitely many steps. */
module ConnectProgress {
  import opened Counting
  import opened TokenBucket
  import opened Governor
  import opened ConnectProtocol

  /** The task asleep in the bucket is the only one, and wakes when its missing fraction has refilled. */
  ghost predicate OneSleeper(s: State) {
    && WellFormed(s.bucket) && s.bucket.updated <= s.now
    && (forall i | 0 <= i < |s.tasks| && s.tasks[i].phase.InBucket? ::
          s.tasks[i].phase.wake == s.bucket.updated + SleepFor(s.bucket))
    && (forall i, j | 0 <= i < j < |s.tasks| :: !(s.tasks[i].phase.InBucket? && s.tasks[j].phase.InBucket?))
  }

  predicate TurnEffect(s: State, after: State, i: nat) {
    && i < |s.tasks| && (forall j | 0 <= j < |s.tasks| && j != i :: !s.tasks[j].phase.InBucket?)
    && after.now == s.now && after.bucket == TakeTurn(s.bucket, s.now).bucket && 0.0 < after.bucket.rate
    && |after.tasks| == |s.tasks| && after.tasks == s.tasks[i := after.tasks[i]]
    && (after.tasks[i].phase.InBucket? ==> after.tasks[i].phase == InBucket(s.now + SleepFor(after.bucket)))
  }

  lemma TurnKeepsSleeper(s: State, after: State, i: nat)
    requires OneSleeper(s) && TurnEffect(s, after, i)
    ensures OneSleeper(after)
  {
    TurnKeepsWellFormed(s.bucket, s.now);
  }

  predicate OtherEffect(s: State, after: State) {
    && s.now <= after.now && after.bucket == s.bucket && |after.tasks| == |s.tasks|
    && forall j | 0 <= j < |s.tasks| && after.tasks[j].phase.InBucket? :: after.tasks[j] == s.tasks[j]
  }

  lemma StepEffect(s: State, step: Step)
    requires 0.0 < s.bucket.rate && Enabled(s, step)
    ensures !step.TurnOf? ==> OtherEffect(s, Apply(s, step))
    ensures step.TurnOf? && OneSleeper(s) ==> TurnEffect(s, Apply(s, step), step.i)
  {
  }

  lemma StepKeepsSleeper(s: State, step: Step)
    requires 0.0 < s.bucket.rate && Enabled(s, step) && OneSleeper(s)
    ensures OneSleeper(Apply(s, step))
  {
    StepEffect(s, step);
    if step.TurnOf? {
      TurnKeepsSleeper(s, Apply(s, step), step.i);
    }
  }

  lemma {:induction false} AlwaysOneSleeper(init: State, steps: seq<Step>)
    requires Initial(init) && After(init, steps).Some?
    ensures OneSleeper(After(init, steps).value)
  {
    if steps != [] {
      AlwaysOneSleeper(init, steps[..|steps| - 1]);
      StepKeepsSleeper(After(init, steps[..|steps| - 1]).value, steps[|steps| - 1]);
    }
  }

  // ---- no deadlock ----

  /** Task `i` can take the step after some time has passed, without being cancelled. */
  predicate CanGoOn(s: State, wait: real, step: Step)
    requires 0.0 < s.bucket.rate
  {
    0.0 <= wait && !step.Tick? && !step.Cancel? && !step.CancelRecorded? && Enabled(Apply(s, Tick(wait)), step)
  }

  function WaitUntil(s: State, time: real): real {
    if s.now <= time then time - s.now else 0.0
  }

  /** A task that waits for a permit is kept waiting by tasks that can go on themselves: the permits are
      always taken in the same order, global before host. */
  lemma HolderGoesOn(s: State, i: nat) returns (step: Step)
    requires 0.0 < s.bucket.rate && PermitsConserved(s) && 0 < s.gov.limits.perHostConcurrency
    requires i < |s.tasks| && HoldsGlobal(s.tasks[i])
    ensures CanGoOn(s, 0.0, step)
  {
    var t := s.tasks[i];
    if t.phase.Connecting? {
      step := Succeed(i);
    } else if t.phase.Failing? {
      step := WriteEntry(i);
    } else {
      assert HostConserved(s, t.host);
      if 0 < FreeOn(s.gov, t.host) {
        step := TakeHostPermit(i);
      } else {
        CountPositive(s.tasks, HoldsOn(t.host));
        var j :| 0 <= j < |s.tasks| && HoldsOn(t.host)(s.tasks[j]);
        step := if s.tasks[j].phase.Connecting? then Succeed(j) else WriteEntry(j);
      }
    }
  }

  lemma SleeperGoesOn(s: State, i: nat) returns (wait: real, step: Step)
    requires 0.0 < s.bucket.rate && i < |s.tasks| && s.tasks[i].phase.InBucket?
    ensures CanGoOn(s, wait, step)
  {
    wait, step := WaitUntil(s, s.tasks[i].phase.wake), TurnOf(i);
  }

  /** In every reachable state with an unfinished task, some task can go on, if need be after some time:
      neither the permits nor the lock of the bucket can deadlock. */
  lemma NoDeadlock(init: State, steps: seq<Step>, i: nat) returns (wait: real, step: Step)
    requires Initial(init) && After(init, steps).Some?
    requires var s := After(init, steps).value; i < |s.tasks| && !s.tasks[i].phase.Finished?
    ensures CanGoOn(After(init, steps).value, wait, step)
  {
    PermitsAlwaysConserved(init, steps);
    var s := After(init, steps).value;
    var t := s.tasks[i];
    wait := 0.0;
    match t.phase
    case Idle => step := Begin(i);
    case Refusing(_) => step := WriteEntry(i);
    case BackingOff(until) => wait, step := WaitUntil(s, until), Wake(i);
    case Queued =>
      if LockIsFree(s) {
        step := TurnOf(i);
      } else {
        var j :| 0 <= j < |s.tasks| && s.tasks[j].phase.InBucket?;
        wait, step := SleeperGoesOn(s, j);
      }
    case InBucket(_) => wait, step := SleeperGoesOn(s, i);
    case HasToken =>
      if 0 < s.gov.globalFree {
        step := TakeGlobalPermit(i);
      } else {
        CountPositive(s.tasks, HoldsGlobal);
        var j :| 0 <= j < |s.tasks| && HoldsGlobal(s.tasks[j]);
        step := HolderGoesOn(s, j);
      }
    case HasGlobal => step := HolderGoesOn(s, i);
    case Connecting => step := Succeed(i);
    case Failing(_) => step := WriteEntry(i);
    case Recording => step := WriteEntry(i);
  }

  // ---- every run is finite ----

  /** How many steps a task has left at most. */
  function Left(t: Task): nat {
    match t.phase
    case Idle => 8
    case Refusing(_) => 1
    case BackingOff(_) => 7
    case Queued => 6
    case InBucket(_) => 5
    case HasToken => 4
    case HasGlobal => 3
    case Connecting => 2
    case Failing(_) => 1
    case Recording => 1
    case Finished(_) => 0
  }

  predicate MovesOn(s: State, after: State, i: nat) {
    && i < |s.tasks| == |after.tasks| && after.tasks == s.tasks[i := after.tasks[i]]
    && Left(after.tasks[i]) < Left(s.tasks[i])
  }

  /** Each step of a task moves it on. In the bucket this needs a rate of at least 1: the second turn of
      the loop is always served. */
  lemma StepMovesOn(s: State, step: Step)
    requires 1.0 <= s.bucket.rate && Enabled(s, step) && OneSleeper(s) && !step.Tick?
    ensures MovesOn(s, Apply(s, step), step.i)
  {
    if step.TurnOf? && s.tasks[step.i].phase.InBucket? {
      SleepIsEnough(s.bucket, s.now);
    }
  }

  function TaskSteps(steps: seq<Step>): nat {
    Count(steps, (step: Step) => !step.Tick?)
  }

  lemma MeasureDrops(s: State, after: State, i: nat)
    requires MovesOn(s, after, i)
    ensures Sum(after.tasks, Left) < Sum(s.tasks, Left)
  {
    SumUpdate(s.tasks, i, after.tasks[i], Left);
  }

  /** A run takes at most as many task steps as its tasks had left: together with `NoDeadlock`, every task
      of every scan comes to its end. */
  lemma {:induction false} EveryRunIsFinite(init: State, steps: seq<Step>)
    requires Initial(init) && 1.0 <= init.bucket.rate && After(init, steps).Some?
    ensures TaskSteps(steps) + Sum(After(init, steps).value.tasks, Left) <= Sum(init.tasks, Left)
  {
    if steps != [] {
      var earlier, step := steps[..|steps| - 1], steps[|steps| - 1];
      EveryRunIsFinite(init, earlier);
      AlwaysOneSleeper(init, earlier);
      var before := After(init, earlier).value;
      if !step.Tick? {
        StepMovesOn(before, step);
        MeasureDrops(before, Apply(before, step), step.i);
      }
    }
  }
}
