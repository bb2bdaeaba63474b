/** The two ways in which a scan can get two executors: a live worker whose heartbeat is late, and two
    workers that find the same stale lock row. */
module WorkerRaces {
  import opened Wrappers
  import opened Domain
  import opened WorkerLock

  /** Every state of the run is timely. */
  ghost predicate AllTimely(init: State, steps: seq<Step>) {
    forall k | 0 <= k <= |steps| && Run(init, steps[..k]).Some? :: Timely(Run(init, steps[..k]).value)
  }

  /** Every takeover of the run finds the row that was read. */
  ghost predicate AllAtomic(init: State, steps: seq<Step>) {
    forall k | 0 <= k < |steps| && Run(init, steps[..k]).Some? :: AtomicTakeover(Run(init, steps[..k]).value, steps[k])
  }

  lemma ExtendTimely(init: State, steps: seq<Step>, s: State, step: Step)
    requires Run(init, steps + [step]) == Some(s) && AllTimely(init, steps) && Timely(s)
    ensures AllTimely(init, steps + [step])
  {
    var longer := steps + [step];
    forall k | 0 <= k <= |longer| && Run(init, longer[..k]).Some?
      ensures Timely(Run(init, longer[..k]).value)
    {
      if k <= |steps| {
        assert longer[..k] == steps[..k];
      } else {
        assert longer[..k] == longer;
      }
    }
  }

  lemma ExtendAtomic(init: State, steps: seq<Step>, s: State, step: Step)
    requires Run(init, steps) == Some(s) && AllAtomic(init, steps) && AtomicTakeover(s, step)
    ensures AllAtomic(init, steps + [step])
  {
    var longer := steps + [step];
    forall k | 0 <= k < |longer| && Run(init, longer[..k]).Some?
      ensures AtomicTakeover(Run(init, longer[..k]).value, longer[k])
    {
      assert longer[..k] == steps[..k];
      assert k == |steps| ==> steps[..k] == steps;
    }
  }

  /** A step that neither moves the clock nor makes a worker live keeps a timely state timely. */
  lemma QuietStepKeepsTimely(s: State, step: Step)
    requires Enabled(s, step) && Timely(s)
    requires step.BeginAcquire? || step.ReadLock? || step.Recover? || step.Select? || step.Claim?
    ensures Timely(Apply(s, step))
  {
    var after := Apply(s, step);
    forall v | IsLive(after, v)
      ensures after.now - after.workers[v].lastBeat < 30.0
    {
      assert IsLive(s, v);
    }
  }

  lemma CommitKeepsTimely(s: State, w: nat)
    requires Enabled(s, CommitLock(w)) && Timely(s)
    requires s.now - s.workers[w].phase.moment < 30.0
    ensures Timely(Apply(s, CommitLock(w)))
  {
    var after := Apply(s, CommitLock(w));
    forall v | IsLive(after, v)
      ensures after.now - after.workers[v].lastBeat < 30.0
    {
      if v != w {
        assert IsLive(s, v);
      }
    }
  }

  /** What a run carries along: that it leads to `s`, and which of the two assumptions it meets. */
  ghost predicate Leads(init: State, steps: seq<Step>, s: State, timely: bool, atomic: bool) {
    && Run(init, steps) == Some(s)
    && (timely ==> AllTimely(init, steps) && Timely(s))
    && (atomic ==> AllAtomic(init, steps))
  }

  lemma LeadsOn(init: State, steps: seq<Step>, s: State, timely: bool, atomic: bool, step: Step)
    requires Leads(init, steps, s, timely, atomic) && Enabled(s, step)
    requires timely ==> Timely(Apply(s, step))
    requires atomic ==> AtomicTakeover(s, step)
    ensures Leads(init, steps + [step], Apply(s, step), timely, atomic)
  {
    if timely {
      ExtendTimely(init, steps, Apply(s, step), step);
    }
    if atomic {
      ExtendAtomic(init, steps, s, step);
    }
  }

  lemma QuietlyOn(init: State, steps: seq<Step>, s: State, timely: bool, atomic: bool, step: Step)
    requires Leads(init, steps, s, timely, atomic) && Enabled(s, step)
    requires step.BeginAcquire? || step.ReadLock? || step.Recover? || step.Select? || step.Claim?
    ensures Leads(init, steps + [step], Apply(s, step), timely, atomic)
  {
    if timely {
      QuietStepKeepsTimely(s, step);
    }
    LeadsOn(init, steps, s, timely, atomic, step);
  }

  /** One scan and two workers. */
  predicate Small(s: State) {
    |s.scans| == 1 && |s.workers| == 2
  }

  /** Worker `w` reads the lock, finds it free or stale, and decides to take it. */
  lemma Decides(init: State, steps: seq<Step>, s: State, timely: bool, atomic: bool, w: nat)
    returns (longer: seq<Step>, after: State)
    requires Leads(init, steps, s, timely, atomic) && Small(s) && w < 2 && s.workers[w].phase.Down?
    requires !Refuses(s.lock, w, s.now)
    ensures Leads(init, longer, after, timely, atomic)
    ensures after == s.(workers := Put(s, w, Committing(s.now, s.lock)))
  {
    var reading := Apply(s, BeginAcquire(w));
    QuietlyOn(init, steps, s, timely, atomic, BeginAcquire(w));
    QuietlyOn(init, steps + [BeginAcquire(w)], reading, timely, atomic, ReadLock(w));
    longer, after := steps + [BeginAcquire(w)] + [ReadLock(w)], Apply(reading, ReadLock(w));
    assert after.workers == Put(s, w, Committing(s.now, s.lock));
  }

  /** Worker `w` commits the lock and recovers. */
  lemma Takes(init: State, steps: seq<Step>, s: State, timely: bool, atomic: bool, w: nat)
    returns (longer: seq<Step>, after: State)
    requires Leads(init, steps, s, timely, atomic) && Small(s) && w < 2
    requires s.workers[w].phase.Committing? && !CommitFails(s.lock, s.workers[w].phase.seen)
    requires timely ==> s.now - s.workers[w].phase.moment < 30.0
    requires atomic ==> AtomicTakeover(s, CommitLock(w))
    ensures Leads(init, longer, after, timely, atomic)
    ensures after == State(s.now, Some(LockRow(w, s.workers[w].phase.moment)), Requeued(s.scans),
                           s.workers[w := Worker(Looping, s.workers[w].phase.moment)])
  {
    var taken := Apply(s, CommitLock(w));
    if timely {
      CommitKeepsTimely(s, w);
    }
    LeadsOn(init, steps, s, timely, atomic, CommitLock(w));
    QuietlyOn(init, steps + [CommitLock(w)], taken, timely, atomic, Recover(w));
    longer, after := steps + [CommitLock(w)] + [Recover(w)], Apply(taken, Recover(w));
    assert after.workers == s.workers[w := Worker(Looping, s.workers[w].phase.moment)];
  }

  /** Worker `w` claims the one scan. */
  lemma Claims(init: State, steps: seq<Step>, s: State, timely: bool, atomic: bool, w: nat)
    returns (longer: seq<Step>, after: State)
    requires Leads(init, steps, s, timely, atomic) && Small(s) && w < 2
    requires s.workers[w].phase == Looping && s.scans[0].status == Queued
    ensures Leads(init, longer, after, timely, atomic)
    ensures after.now == s.now && after.lock == s.lock && after.workers == Put(s, w, Executing(0))
    ensures |after.scans| == 1 && after.scans[0].status == Running
  {
    assert OldestQueued(s.scans) == 0;
    var chosen := Apply(s, Select(w));
    QuietlyOn(init, steps, s, timely, atomic, Select(w));
    QuietlyOn(init, steps + [Select(w)], chosen, timely, atomic, Claim(w));
    longer, after := steps + [Select(w)] + [Claim(w)], Apply(chosen, Claim(w));
    assert after.workers == Put(s, w, Executing(0));
  }

  /** Worker `w`, having decided, takes the lock, recovers, and claims the one scan. */
  lemma TakesAndClaims(init: State, steps: seq<Step>, s: State, timely: bool, atomic: bool, w: nat)
    returns (longer: seq<Step>, after: State)
    requires Leads(init, steps, s, timely, atomic) && Small(s) && w < 2
    requires s.workers[w].phase.Committing? && !CommitFails(s.lock, s.workers[w].phase.seen)
    requires s.scans[0].status == Queued || s.scans[0].status == Running
    requires timely ==> s.now - s.workers[w].phase.moment < 30.0
    requires atomic ==> AtomicTakeover(s, CommitLock(w))
    ensures Leads(init, longer, after, timely, atomic) && Small(after) && after.now == s.now
    ensures after.workers == s.workers[w := Worker(Executing(0), s.workers[w].phase.moment)]
    ensures after.lock == Some(LockRow(w, s.workers[w].phase.moment))
    ensures after.scans[0].status == Running
  {
    var mid: State;
    longer, mid := Takes(init, steps, s, timely, atomic, w);
    longer, after := Claims(init, longer, mid, timely, atomic, w);
  }

  function Start(lock: Option<LockRow>): State {
    State(0.0, lock, [ScanRow(Queued, None, 0, 0)], [Worker(Down, 0.0), Worker(Down, 0.0)])
  }

  /** Both workers execute scan 0. */
  predicate TwoExecutors(s: State) {
    Small(s) && s.workers[0].phase == Executing(0) && s.workers[1].phase == Executing(0)
  }

  /** With atomic takeovers but a worker that has not beaten for 30 seconds, a scan gets two executors. */
  lemma LateBeatGivesTwoExecutors() returns (init: State, steps: seq<Step>)
    ensures Initial(init) && Run(init, steps).Some? && AllAtomic(init, steps) && TwoExecutors(Run(init, steps).value)
  {
    init, steps := Start(None), [];
    var s := init;
    steps, s := Decides(init, steps, s, false, true, 0);
    steps, s := TakesAndClaims(init, steps, s, false, true, 0);
    var later := Apply(s, Tick(30.0));
    LeadsOn(init, steps, s, false, true, Tick(30.0));
    steps, s := Decides(init, steps + [Tick(30.0)], later, false, true, 1);
    steps, s := TakesAndClaims(init, steps, s, false, true, 1);
  }

  /** Once a scan has two executors, its terminal status can change from any one to any other. */
  lemma TwoExecutorsOverwriteTerminal(init: State, steps: seq<Step>, first: ScanStatus, second: ScanStatus)
    requires Run(init, steps).Some? && TwoExecutors(Run(init, steps).value)
    requires first.IsTerminal() && second.IsTerminal()
    ensures var mid := Run(init, steps + [Finish(0, first)]);
            mid.Some? && |mid.value.scans| == 1 && mid.value.scans[0].status == first
    ensures var end := Run(init, steps + [Finish(0, first)] + [Finish(1, second)]);
            end.Some? && |end.value.scans| == 1 && end.value.scans[0].status == second
  {
    var s := Run(init, steps).value;
  }

  /** With all heartbeats in time, two workers that both read the same stale row both commit it: the
      update does not check the row it overwrites, and the scan gets two executors. */
  lemma StaleRowRaceGivesTwoExecutors() returns (init: State, steps: seq<Step>)
    ensures Initial(init) && Run(init, steps).Some? && AllTimely(init, steps) && TwoExecutors(Run(init, steps).value)
  {
    init, steps := Start(Some(LockRow(9, -30.0))), [];
    var s := init;
    steps, s := Decides(init, steps, s, true, false, 0);
    steps, s := Decides(init, steps, s, true, false, 1);
    steps, s := TakesAndClaims(init, steps, s, true, false, 0);
    steps, s := TakesAndClaims(init, steps, s, true, false, 1);
  }
}
