/** A scan of several fan-outs that goes all the way: if there is room in both budgets whenever a wave starts,
    there is a run in which every connect is made. */
module ConnectWaves {
  import opened Wrappers
  import opened Counting
  import opened FanOuts
  import opened TokenBucket
  import opened Governor
  import opened ConnectProtocol
  import opened ConnectBudget

  function To(host: Host): Task -> bool {
    (t: Task) => t.host == host
  }

  /** How many of the first `d` tasks connect to the host. */
  function ConnectsOn(tasks: seq<Task>, d: nat, host: Host): nat
    requires d <= |tasks|
  {
    Count(tasks[..d], To(host))
  }

  lemma ConnectsNext(tasks: seq<Task>, d: nat, host: Host)
    requires d < |tasks|
    ensures ConnectsOn(tasks, d + 1, host) == ConnectsOn(tasks, d, host) + One(tasks[d].host == host)
  {
    assert tasks[..d + 1][..d] == tasks[..d];
  }

  /** Every job makes one connect, and the guard refuses none. */
  ghost predicate OneEach(init: State, plan: Plan, width: nat) {
    && Initial(init) && 1.0 <= init.bucket.rate && Fits(plan, |init.tasks|, width)
    && Total(Sizes(plan)) == |init.tasks|
    && forall i | 0 <= i < |init.tasks| :: plan.jobOf[i] == i && init.tasks[i].refusal == None
  }

  /** Whenever the wave of a task starts, the tasks of the waves before leave room for it in both budgets. */
  predicate HasRoom(init: State, plan: Plan, j: nat) {
    var start := StartOf(Sizes(plan), j);
    && j < |init.tasks| && start <= |init.tasks|
    && start < init.gov.limits.perScanBudget
    && ConnectsOn(init.tasks, start, init.tasks[j].host) < init.gov.limits.perHostBudget
  }

  ghost predicate RoomForAll(init: State, plan: Plan) {
    forall j: nat | j < |init.tasks| :: HasRoom(init, plan, j)
  }

  // ---- the state between two tasks ----

  /** The first `done` tasks have finished and the first `issued` have begun. */
  function PhaseAt(i: int, done: nat, issued: nat): Phase {
    if issued <= i then Idle else if i < done then Finished(Opened) else Queued
  }

  function TasksAt(init: State, done: nat, issued: nat): seq<Task> {
    seq(|init.tasks|, i requires 0 <= i < |init.tasks| => init.tasks[i].(phase := PhaseAt(i, done, issued)))
  }

  predicate Rested(s: State, init: State) {
    && WellFormed(s.bucket) && 1.0 <= s.bucket.rate && s.bucket.updated <= s.now
    && s.gov.limits == init.gov.limits && s.gov.globalFree == s.gov.limits.globalConcurrency
    && 0 < s.gov.limits.globalConcurrency && 0 < s.gov.limits.perHostConcurrency
    && (forall host | host in s.gov.hostFree :: s.gov.hostFree[host] == s.gov.limits.perHostConcurrency)
    && s.gov.backoff == map[]
  }

  ghost predicate Counted(s: State, init: State, done: nat)
    requires done <= |init.tasks|
  {
    && s.gov.scanCount == done
    && forall host :: CountOn(s.gov, host) == ConnectsOn(init.tasks, done, host)
  }

  ghost predicate Calm(s: State, init: State, done: nat, issued: nat) {
    && done <= issued <= |init.tasks|
    && Rested(s, init) && Counted(s, init, done) && s.tasks == TasksAt(init, done, issued)
  }

  // ---- a run in waves, extended ----

  ghost predicate Leads(init: State, plan: Plan, width: nat, steps: seq<Step>, s: State) {
    0.0 < init.bucket.rate && WaveRun(init, steps, plan, width) && After(init, steps) == Some(s)
  }

  lemma LeadsOn(init: State, plan: Plan, width: nat, steps: seq<Step>, s: State, step: Step)
    requires Leads(init, plan, width, steps, s) && Enabled(s, step)
    requires Orderly(s, step, plan)
    ensures 0.0 < s.bucket.rate && Leads(init, plan, width, steps + [step], Apply(s, step))
  {
    var longer := steps + [step];
    assert longer[..|longer| - 1] == steps;
    forall k | 0 <= k < |longer| && After(init, longer[..k]).Some?
      ensures Orderly(After(init, longer[..k]).value, longer[k], plan)
    {
      assert longer[..k] == steps[..k];
      assert k == |steps| ==> steps[..k] == steps;
    }
  }

  // ---- issuing a task ----

  lemma MayBeIssued(init: State, plan: Plan, width: nat, s: State, done: nat, issued: nat)
    requires OneEach(init, plan, width) && s.tasks == TasksAt(init, done, issued)
    requires done <= issued < |init.tasks| && WaveOf(plan, issued) == done
    requires forall j: nat | done <= j < issued :: WaveOf(plan, j) == done
    ensures MayBegin(s, plan, issued)
  {
    SizesAreBounded(plan.cuts, width);
    forall j: nat | j < |s.tasks|
      ensures Allows(s, plan, issued, j)
    {
      StartBounds(Sizes(plan), j, width);
    }
  }

  lemma IssueOne(init: State, plan: Plan, width: nat, steps: seq<Step>, s: State, done: nat, issued: nat)
    returns (longer: seq<Step>, after: State)
    requires OneEach(init, plan, width) && Leads(init, plan, width, steps, s) && Calm(s, init, done, issued)
    requires issued < |init.tasks| && HasRoom(init, plan, issued) && WaveOf(plan, issued) == done
    requires forall j: nat | done <= j < issued :: WaveOf(plan, j) == done
    ensures Leads(init, plan, width, longer, after) && Calm(after, init, done, issued + 1)
  {
    var t := s.tasks[issued];
    longer, after := steps + [Begin(issued)], Apply(s, Begin(issued));
    MayBeIssued(init, plan, width, s, done, issued);
    LeadsOn(init, plan, width, steps, s, Begin(issued));
    assert CountOn(s.gov, t.host) == ConnectsOn(init.tasks, done, t.host);
    assert BudgetCheck(s.gov, t.host) == None;
    assert after == s.(tasks := Moved(s, issued, Queued));
    assert after.tasks == TasksAt(init, done, issued + 1);
  }

  // ---- finishing a task ----

  lemma RefilledAfterOneSecond(b: Bucket, now: real)
    requires WellFormed(b) && 1.0 <= b.rate && b.updated + 1.0 <= now
    ensures TakeTurn(b, now).granted && WellFormed(TakeTurn(b, now).bucket)
    ensures TakeTurn(b, now).bucket.updated == now && TakeTurn(b, now).bucket.rate == b.rate
  {
    var elapsed := now - b.updated;
    var gained := elapsed * b.rate;
    TurnKeepsWellFormed(b, now);
    assert Refill(b, now).tokens == Min(b.rate, b.tokens + gained);
  }

  predicate BucketRested(s: State) {
    WellFormed(s.bucket) && 1.0 <= s.bucket.rate && s.bucket.updated <= s.now
  }

  /** A second passes, and the task gets its token. */
  lemma GetsToken(init: State, plan: Plan, width: nat, steps: seq<Step>, s: State, i: nat)
    returns (longer: seq<Step>, after: State)
    requires Leads(init, plan, width, steps, s) && BucketRested(s)
    requires i < |s.tasks| && s.tasks[i].phase.Queued? && LockIsFree(s)
    ensures Leads(init, plan, width, longer, after) && BucketRested(after)
    ensures after.tasks == Moved(s, i, HasToken) && after.gov == s.gov
  {
    LeadsOn(init, plan, width, steps, s, Tick(1.0));
    var later := Apply(s, Tick(1.0));
    RefilledAfterOneSecond(s.bucket, later.now);
    LeadsOn(init, plan, width, steps + [Tick(1.0)], later, TurnOf(i));
    longer, after := steps + [Tick(1.0)] + [TurnOf(i)], Apply(later, TurnOf(i));
  }

  /** With its token and free permits it connects. */
  lemma TakesPermits(init: State, plan: Plan, width: nat, steps: seq<Step>, s: State, i: nat)
    returns (longer: seq<Step>, after: State)
    requires Leads(init, plan, width, steps, s) && BucketRested(s) && i < |s.tasks| && s.tasks[i].phase.HasToken?
    requires 0 < s.gov.globalFree && 0 < FreeOn(s.gov, s.tasks[i].host)
    ensures Leads(init, plan, width, longer, after) && BucketRested(after)
    ensures after.tasks == Moved(s, i, Connecting) && after.gov == HostTaken(WithGlobal(s.gov, -1), s.tasks[i].host)
  {
    LeadsOn(init, plan, width, steps, s, TakeGlobalPermit(i));
    var taken := Apply(s, TakeGlobalPermit(i));
    LeadsOn(init, plan, width, steps + [TakeGlobalPermit(i)], taken, TakeHostPermit(i));
    longer, after := steps + [TakeGlobalPermit(i)] + [TakeHostPermit(i)], Apply(taken, TakeHostPermit(i));
    assert after.tasks == Moved(s, i, Connecting);
  }

  /** The connect succeeds and is recorded. */
  lemma SucceedsAndRecords(init: State, plan: Plan, width: nat, steps: seq<Step>, s: State, i: nat)
    returns (longer: seq<Step>, after: State)
    requires Leads(init, plan, width, steps, s) && BucketRested(s) && i < |s.tasks| && s.tasks[i].phase.Connecting?
    ensures Leads(init, plan, width, longer, after) && BucketRested(after)
    ensures after.tasks == Moved(s, i, Finished(Opened))
    ensures after.gov == SuccessReported(Released(s.gov, s.tasks[i].host), s.tasks[i].host)
  {
    LeadsOn(init, plan, width, steps, s, Succeed(i));
    var recording := Apply(s, Succeed(i));
    LeadsOn(init, plan, width, steps + [Succeed(i)], recording, WriteEntry(i));
    longer, after := steps + [Succeed(i)] + [WriteEntry(i)], Apply(recording, WriteEntry(i));
    assert after.tasks == Moved(s, i, Finished(Opened));
  }

  /** What one whole connect does to the governor. */
  function Through(g: Gov, host: Host): Gov {
    SuccessReported(Released(HostTaken(WithGlobal(g, -1), host), host), host)
  }

  lemma ConnectOne(init: State, plan: Plan, width: nat, steps: seq<Step>, s: State, i: nat)
    returns (longer: seq<Step>, after: State)
    requires Leads(init, plan, width, steps, s) && BucketRested(s)
    requires i < |s.tasks| && s.tasks[i].phase.Queued? && LockIsFree(s)
    requires 0 < s.gov.globalFree && 0 < FreeOn(s.gov, s.tasks[i].host)
    ensures Leads(init, plan, width, longer, after) && BucketRested(after)
    ensures after.tasks == Moved(s, i, Finished(Opened)) && after.gov == Through(s.gov, s.tasks[i].host)
  {
    var s1: State, s2: State;
    longer, s1 := GetsToken(init, plan, width, steps, s, i);
    longer, s2 := TakesPermits(init, plan, width, longer, s1, i);
    longer, after := SucceedsAndRecords(init, plan, width, longer, s2, i);
    assert after.tasks == Moved(s, i, Finished(Opened));
  }

  lemma ThroughCounts(s: State, after: State, init: State, done: nat)
    requires done < |init.tasks| && Counted(s, init, done) && after.gov == Through(s.gov, init.tasks[done].host)
    ensures Counted(after, init, done + 1)
  {
    forall host
      ensures CountOn(after.gov, host) == ConnectsOn(init.tasks, done + 1, host)
    {
      ConnectsNext(init.tasks, done, host);
      assert CountOn(s.gov, host) == ConnectsOn(init.tasks, done, host);
    }
  }

  lemma FinishOne(init: State, plan: Plan, width: nat, steps: seq<Step>, s: State, done: nat, issued: nat)
    returns (longer: seq<Step>, after: State)
    requires Leads(init, plan, width, steps, s) && Calm(s, init, done, issued) && done < issued
    ensures Leads(init, plan, width, longer, after) && Calm(after, init, done + 1, issued)
  {
    longer, after := ConnectOne(init, plan, width, steps, s, done);
    ThroughCounts(s, after, init, done);
    assert after.tasks == TasksAt(init, done + 1, issued);
  }

  // ---- whole waves ----

  lemma IssueWave(init: State, plan: Plan, width: nat, steps: seq<Step>, s: State, from: nat, to: nat)
    returns (longer: seq<Step>, after: State)
    requires OneEach(init, plan, width) && RoomForAll(init, plan)
    requires Leads(init, plan, width, steps, s) && Calm(s, init, from, from) && from <= to <= |init.tasks|
    requires forall j: nat | from <= j < to :: WaveOf(plan, j) == from
    ensures Leads(init, plan, width, longer, after) && Calm(after, init, from, to)
  {
    longer, after := steps, s;
    for issued := from to to
      invariant Leads(init, plan, width, longer, after) && Calm(after, init, from, issued)
    {
      assert HasRoom(init, plan, issued);
      longer, after := IssueOne(init, plan, width, longer, after, from, issued);
    }
  }

  lemma FinishWave(init: State, plan: Plan, width: nat, steps: seq<Step>, s: State, from: nat, to: nat)
    returns (longer: seq<Step>, after: State)
    requires Leads(init, plan, width, steps, s) && Calm(s, init, from, to)
    ensures Leads(init, plan, width, longer, after) && Calm(after, init, to, to)
  {
    longer, after := steps, s;
    for done := from to to
      invariant Leads(init, plan, width, longer, after) && Calm(after, init, done, to)
    {
      longer, after := FinishOne(init, plan, width, longer, after, done, to);
    }
  }

  lemma InitialIsCalm(init: State)
    requires Initial(init) && 1.0 <= init.bucket.rate
    ensures Calm(init, init, 0, 0)
  {
    assert init.tasks == TasksAt(init, 0, 0);
  }

  lemma OneWave(init: State, plan: Plan, width: nat, steps: seq<Step>, s: State, k: nat)
    returns (longer: seq<Step>, after: State)
    requires OneEach(init, plan, width) && RoomForAll(init, plan) && k < |Sizes(plan)|
    requires var from := Total(Sizes(plan)[..k]);
             && from + Sizes(plan)[k] <= |init.tasks|
             && Leads(init, plan, width, steps, s) && Calm(s, init, from, from)
    ensures var to := Total(Sizes(plan)[..k + 1]);
            Leads(init, plan, width, longer, after) && Calm(after, init, to, to)
  {
    var sizes := Sizes(plan);
    var from, to := Total(sizes[..k]), Total(sizes[..k]) + sizes[k];
    TotalPrefix(sizes, k);
    forall j: nat | from <= j < to
      ensures WaveOf(plan, j) == from
    {
      StartIs(sizes, k, j);
    }
    longer, after := IssueWave(init, plan, width, steps, s, from, to);
    longer, after := FinishWave(init, plan, width, longer, after, from, to);
  }

  /** With room for every wave, there is a run of the fan-outs after which every task has connected, counted in
      full. */
  lemma WavesGoThrough(init: State, plan: Plan, width: nat) returns (steps: seq<Step>, s: State)
    requires OneEach(init, plan, width) && RoomForAll(init, plan)
    ensures Leads(init, plan, width, steps, s) && Calm(s, init, |init.tasks|, |init.tasks|)
  {
    var sizes := Sizes(plan);
    steps, s := [], init;
    InitialIsCalm(init);
    for k := 0 to |sizes|
      invariant Leads(init, plan, width, steps, s)
      invariant Calm(s, init, Total(sizes[..k]), Total(sizes[..k]))
    {
      PrefixTotal(sizes, k + 1);
      TotalPrefix(sizes, k);
      steps, s := OneWave(init, plan, width, steps, s, k);
    }
    assert sizes[..|sizes|] == sizes;
  }

  lemma {:induction false} PrefixTotal(sizes: seq<nat>, k: nat)
    requires k <= |sizes|
    ensures Total(sizes[..k]) <= Total(sizes)
  {
    if k > 0 {
      assert sizes[..k][1..] == sizes[1..][..k - 1];
      PrefixTotal(sizes[1..], k - 1);
    }
  }
}
