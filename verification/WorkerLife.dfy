/** What a worker does with its scans and with its lock, step by step: the steps of `WorkerLock` strung together. */
module WorkerLife {
  import opened Wrappers
  import opened Domain
  import opened WorkerLock

  lemma {:induction false} RunFromFirst(s: State, first: Step, rest: seq<Step>)
    requires Enabled(s, first)
    ensures Run(s, [first] + rest) == Run(Apply(s, first), rest)
  {
    if rest == [] {
      assert [first] + rest == [first] && [first][..0] == [];
      assert Run(s, [first][..0]) == Some(s);
    } else {
      RunFromFirst(s, first, rest[..|rest| - 1]);
      assert ([first] + rest)[..|[first] + rest| - 1] == [first] + rest[..|rest| - 1];
    }
  }

  lemma RunTwo(s: State, first: Step, second: Step)
    requires Enabled(s, first) && Enabled(Apply(s, first), second)
    ensures Run(s, [first, second]) == Some(Apply(Apply(s, first), second))
  {
    RunFromFirst(s, first, [second]);
    RunFromFirst(Apply(s, first), second, []);
    assert [first] + [second] == [first, second] && [second] + [] == [second];
  }

  lemma RunThree(s: State, first: Step, second: Step, third: Step)
    requires Enabled(s, first) && Enabled(Apply(s, first), second)
    requires Enabled(Apply(Apply(s, first), second), third)
    ensures Run(s, [first, second, third]) == Some(Apply(Apply(Apply(s, first), second), third))
  {
    RunFromFirst(s, first, [second, third]);
    RunTwo(Apply(s, first), second, third);
    assert [first] + [second, third] == [first, second, third];
  }

  // ---- scans ----

  /** A new scan is queued behind all others, whatever the workers do. */
  lemma SubmittedScanIsQueued(s: State)
    ensures Run(s, [Submit]).Some?
    ensures Run(s, [Submit]).value == s.(scans := s.scans + [ScanRow(Queued, None, 0, 0)])
  {
    RunFromFirst(s, Submit, []);
    assert [Submit] + [] == [Submit];
  }

  /** An idle worker takes the oldest queued scan, executes it under its name, and is idle again; with no queued
      scan it stays so. */
  lemma OldestScanIsExecuted(s: State, w: nat, status: ScanStatus)
    requires w < |s.workers| && s.workers[w].phase == Looping && status.IsTerminal()
    ensures (forall d | 0 <= d < |s.scans| :: s.scans[d].status != Queued) ==> Run(s, [Select(w)]) == Some(s)
    ensures forall c | 0 <= c < |s.scans| && s.scans[c].status == Queued
                       && (forall d | 0 <= d < c :: s.scans[d].status != Queued) ::
              Run(s, [Select(w), Claim(w), Finish(w, status)])
              == Some(s.(scans := s.scans[c := ScanRow(status, Some(w), s.scans[c].wins + 1, s.scans[c].requeues)]))
  {
    var c := OldestQueued(s.scans);
    RunFromFirst(s, Select(w), []);
    assert [Select(w)] + [] == [Select(w)];
    if c < |s.scans| {
      RunThree(s, Select(w), Claim(w), Finish(w, status));
      var end := Apply(Apply(Apply(s, Select(w)), Claim(w)), Finish(w, status));
      assert end.workers == s.workers;
      assert end.scans == s.scans[c := ScanRow(status, Some(w), s.scans[c].wins + 1, s.scans[c].requeues)];
    } else {
      assert Put(s, w, Looping) == s.workers;
    }
  }

  /** Of two workers that have selected one queued scan, the first to claim it executes it and the other goes back
      to looking. */
  lemma ClaimRaceHasOneWinner(s: State, v: nat, w: nat, c: nat)
    requires v != w && v < |s.workers| && w < |s.workers| && c < |s.scans| && s.scans[c].status == Queued
    requires s.workers[v].phase == Claiming(c) && s.workers[w].phase == Claiming(c)
    ensures Run(s, [Claim(v), Claim(w)]).Some?
    ensures var t := Run(s, [Claim(v), Claim(w)]).value;
            && |t.scans| == |s.scans| && t.scans[c].status == Running && t.scans[c].claimedBy == Some(v)
            && |t.workers| == |s.workers| && t.workers[v].phase == Executing(c) && t.workers[w].phase == Looping
  {
    RunTwo(s, Claim(v), Claim(w));
  }

  /** A worker whose loop dies leaves its scan running and goes on beating. */
  lemma DeadLoopStillBeats(s: State, w: nat, seconds: real)
    requires w < |s.workers| && s.workers[w].phase.Executing? && 0.0 <= seconds
    requires s.lock.Some? && s.lock.value.owner == w
    ensures Run(s, [LoopCrash(w), Tick(seconds), Beat(w)])
         == Some(s.(now := s.now + seconds, lock := Some(LockRow(w, s.now + seconds)),
                    workers := s.workers[w := Worker(LoopDead, s.now + seconds)]))
  {
    RunThree(s, LoopCrash(w), Tick(seconds), Beat(w));
    var end := Apply(Apply(Apply(s, LoopCrash(w)), Tick(seconds)), Beat(w));
    assert end.workers == s.workers[w := Worker(LoopDead, s.now + seconds)];
  }

  // ---- the lock ----

  /** Of two workers that have both found no lock row, the first to insert one has the lock and the other is
      refused. */
  lemma InsertRaceHasOneWinner(s: State, v: nat, w: nat)
    requires v != w && v < |s.workers| && w < |s.workers| && s.lock == None
    requires s.workers[v].phase.Committing? && s.workers[v].phase.seen == None
    requires s.workers[w].phase.Committing? && s.workers[w].phase.seen == None
    ensures Run(s, [CommitLock(v), CommitLock(w)]).Some?
    ensures var t := Run(s, [CommitLock(v), CommitLock(w)]).value;
            && t.lock == Some(LockRow(v, s.workers[v].phase.moment))
            && |t.workers| == |s.workers| && t.workers[v].phase == Starting && t.workers[w].phase == Down
  {
    RunTwo(s, CommitLock(v), CommitLock(w));
  }

  /** A worker that stops deletes the lock row exactly if it is its own; on the way it neither beats nor does
      anything else. */
  lemma StoppingFreesTheLock(s: State, w: nat)
    requires w < |s.workers| && Holds(s.workers[w].phase) && !s.workers[w].phase.Releasing?
    ensures Run(s, [ReadRelease(w), CommitRelease(w)])
         == Some(s.(lock := if s.lock.Some? && s.lock.value.owner == w then None else s.lock,
                    workers := s.workers[w := s.workers[w].(phase := Down)]))
    ensures forall step: Step | !step.Tick? && !step.Submit? && step.w == w ::
              Enabled(Apply(s, ReadRelease(w)), step) ==> step.CommitRelease? || step.Crash?
  {
    RunTwo(s, ReadRelease(w), CommitRelease(w));
    var end := Apply(Apply(s, ReadRelease(w)), CommitRelease(w));
    assert end.workers == s.workers[w := s.workers[w].(phase := Down)];
  }

  /** A worker that dies leaves its row and its scan as they are; one that is starting recovers before it beats or
      looks for scans. */
  lemma CrashLeavesEverything(s: State, w: nat)
    requires w < |s.workers|
    ensures Enabled(s, Crash(w))
    ensures Apply(s, Crash(w)) == s.(workers := s.workers[w := s.workers[w].(phase := Down)])
    ensures s.workers[w].phase.Starting? ==>
              !Enabled(s, Beat(w)) && !Enabled(s, Select(w))
              && Enabled(s, Recover(w)) && Apply(s, Recover(w)).workers[w].phase == Looping
  {
  }
}
