/** Any attempt of the loop, at any point in the life of a scan, ends in a state of the step relation; what
    it ends with is exactly determined by the dispatch, the cancel request and the modules. */
module ScanAttempt {
  import opened Wrappers
  import opened Domain
  import opened ScanExecution
  import opened ScanDurability
  import opened ScanVerdict
  import opened ScanOutcome
  import opened ScanCancel
  import opened ScanLoop

  predicate InLoop(pc: Pc) {
    pc.Checking? || HasModule(pc)
  }

  lemma ClosingKeepsWhy(w: World, s: State)
    requires Covers(w, s) && s.pc.Closing?
    ensures Drive(w, s).pc == Ended(s.pc.why)
  {
    NextKeeps(w, s);
    assert Drive(w, Apply(s, Close)) == Apply(s, Close);
  }

  /** The loop ends in canceled exactly if a request is committed before its last check. */
  lemma {:induction false} LoopEndsCanceledExactly(w: World, s: State)
    requires Covers(w, s) && InLoop(s.pc)
    ensures Drive(w, s).pc == Ended(if s.db.cancel || w.arrives <= |s.plan| then CancelSeen else Finished)
    decreases Remaining(s), !s.db.cancel
  {
    NextKeeps(w, s);
    var t := Apply(s, Next(w, s));
    if InLoop(t.pc) {
      assert t.db.cancel == (s.db.cancel || Next(w, s) == Cancel);
      LoopEndsCanceledExactly(w, t);
    } else {
      assert Next(w, s) == Check && (t.pc.Skipping? <==> s.db.cancel);
      if t.pc.Skipping? {
        NextKeeps(w, t);
        ClosingKeepsWhy(w, Apply(t, Skip));
      } else {
        ClosingKeepsWhy(w, t);
      }
    }
  }

  /** However often the scan was attempted before: an attempt that the worker survives is failed with all
      rows untouched if its dispatch is refused; else it is canceled, with all rows terminal, if a request is
      committed before its last check; else its status is the one its module rows give. */
  lemma AttemptEnds(init: State, steps: seq<Step>, w: World)
    requires Initial(init) && Run(init, steps).Some?
    requires Run(init, steps).value.pc == Dispatching && |w.outcomes| == |init.plan|
    ensures Covers(w, Run(init, steps).value)
    ensures var s := Run(init, steps).value;
            var end := Drive(w, s);
            && Fits(end)
            && (!w.accepted ==> end.db.status == ScanStatus.Failed && end.db.rows == s.db.rows)
            && (w.accepted && (s.db.cancel || w.arrives <= |s.plan|) ==>
                end.db.status == Canceled && AllTerminal(end.db.rows))
            && (w.accepted && !s.db.cancel && w.arrives > |s.plan| ==>
                  && AllTerminal(end.db.rows)
                  && (end.db.status == ScanStatus.Failed <==> !SomeDone(end, |end.plan|))
                  && (end.db.status == CompletedWithWarnings <==>
                      SomeDone(end, |end.plan|) && SomeProblem(end, |end.plan|))
                  && (end.db.status == Completed <==> SomeDone(end, |end.plan|) && !SomeProblem(end, |end.plan|)))
  {
    var s := Run(init, steps).value;
    RunsFit(init, steps);
    RunsKeepAllPlaces(init, steps);
    NextKeeps(w, s);
    if !w.accepted {
      ClosingEnds(w, Apply(s, Dispatch(false)));
    } else {
      LoopEndsCanceledExactly(w, Apply(s, Dispatch(true)));
    }
    EndIsReached(init, steps, w);
  }

  lemma EndIsReached(init: State, steps: seq<Step>, w: World)
    requires Initial(init) && Run(init, steps).Some? && Covers(w, Run(init, steps).value)
    ensures var end := Drive(w, Run(init, steps).value);
            && Fits(end)
            && (end.pc == Ended(CancelSeen) ==> end.db.status == Canceled && AllTerminal(end.db.rows))
            && (end.pc == Ended(Finished) ==>
                  && AllTerminal(end.db.rows)
                  && (end.db.status == ScanStatus.Failed <==> !SomeDone(end, |end.plan|))
                  && (end.db.status == CompletedWithWarnings <==>
                      SomeDone(end, |end.plan|) && SomeProblem(end, |end.plan|))
                  && (end.db.status == Completed <==> SomeDone(end, |end.plan|) && !SomeProblem(end, |end.plan|)))
  {
    var more := DriveIsARun(w, Run(init, steps).value);
    RunsConcatenate(init, steps, more);
    RunsKeepAllPlaces(init, steps + more);
    TerminalScansHaveTerminalRows(init, steps + more);
    if Drive(w, Run(init, steps).value).pc == Ended(Finished) {
      StatusFollowsFromTheModules(init, steps + more);
    }
  }

  // ---- whether the rows will tell the status, as it can be known at the claim ----

  /** The dispatch is accepted, and no request is committed before the last check. */
  predicate Uninterrupted(w: World, s: State) {
    Covers(w, s) && w.accepted && w.arrives > |s.plan| && !s.db.cancel
  }

  /** Whatever the modules return in this attempt, its rows alone will give its status. */
  ghost predicate RowsWillTell(s: State) {
    forall w | Uninterrupted(w, s) :: Drive(w, s).db.status == RowsVerdict(Drive(w, s).db.rows)
  }

  lemma {:induction false} DriveKeepsClaim(w: World, s: State)
    requires Covers(w, s)
    ensures Drive(w, s).atClaim == s.atClaim && Drive(w, s).plan == s.plan
    decreases Remaining(s), !s.db.cancel
  {
    if !s.pc.Ended? {
      NextKeeps(w, s);
      var t := Apply(s, Next(w, s));
      if !t.pc.Ended? {
        DriveKeepsClaim(w, t);
      }
    }
  }

  // ---- an attempt in which every module succeeds without a warning ----

  predicate CleanOutcome(outcome: Outcome) {
    outcome.Returned? && outcome.result.warnings == []
  }

  predicate CleanRow(s: State, k: nat)
    requires Fits(s) && k < |s.plan|
  {
    && !s.db.rows[k].status.ModuleFailed?
    && (s.db.rows[k].status.Done? && s.returned[k].Some? ==> s.returned[k].value.warnings == [])
  }

  predicate CleanUpTo(s: State, i: nat)
    requires Fits(s) && i <= |s.plan|
  {
    forall k: nat | k < i :: CleanRow(s, k)
  }

  predicate CleanSoFar(s: State) {
    && Fits(s)
    && (InLoop(s.pc) ==> CleanUpTo(s, s.pc.i))
    && !s.pc.Failing?
    && (s.pc.Storing? || s.pc.Marking? ==> s.pc.result.warnings == [] && s.returned[s.pc.i] == Some(s.pc.result))
    && (s.pc.Closing? || s.pc.Ended? ==> CleanUpTo(s, |s.plan|))
  }

  lemma NextKeepsClean(w: World, s: State)
    requires Covers(w, s) && CleanSoFar(s) && (InLoop(s.pc) || s.pc.Closing?)
    requires forall i | 0 <= i < |w.outcomes| :: CleanOutcome(w.outcomes[i])
    ensures CleanSoFar(Apply(s, Next(w, s)))
  {
    NextKeeps(w, s);
    var t := Apply(s, Next(w, s));
    if s.pc.Declining? || s.pc.Marking? {
      assert CleanRow(t, s.pc.i);
    }
    forall k: nat | k < |s.plan| && CleanRow(s, k) && t.db.rows[k] == s.db.rows[k] && t.returned[k] == s.returned[k]
      ensures CleanRow(t, k)
    {
    }
  }

  lemma {:induction false} CleanDrive(w: World, s: State)
    requires Uninterrupted(w, s) && CleanSoFar(s) && (InLoop(s.pc) || s.pc.Closing?)
    requires forall i | 0 <= i < |w.outcomes| :: CleanOutcome(w.outcomes[i])
    ensures CleanSoFar(Drive(w, s))
    decreases Remaining(s)
  {
    NextKeeps(w, s);
    NextKeepsClean(w, s);
    var t := Apply(s, Next(w, s));
    if !t.pc.Ended? {
      CleanDrive(w, t);
    }
  }

  function AllClean(n: nat): World {
    World(true, seq(n, _ => Returned(ModuleResult([], false, []))), n + 1)
  }

  /** In such an attempt every module that applies is done, without a problem. */
  lemma CleanAttempt(init: State, steps: seq<Step>, j: nat)
    requires Initial(init) && Run(init, steps).Some?
    requires var s := Run(init, steps).value; s.pc == Dispatching && !s.db.cancel && j < |s.plan| && s.plan[j]
    ensures Uninterrupted(AllClean(|init.plan|), Run(init, steps).value)
    ensures var end := Drive(AllClean(|init.plan|), Run(init, steps).value);
            Fits(end) && j < |end.plan| && end.db.rows[j].status.Done? && !SomeProblem(end, |end.plan|)
  {
    var s, w := Run(init, steps).value, AllClean(|init.plan|);
    AttemptEnds(init, steps, w);
    NextKeeps(w, s);
    CleanDrive(w, Apply(s, Dispatch(true)));
    var end := Drive(w, s);
    DriveKeepsClaim(w, s);
    LoopEndsCanceledExactly(w, Apply(s, Dispatch(true)));
    EndOfAttempt(init, steps, w);
    assert Passed(end, j) && CleanRow(end, j);
    forall k: nat | k < |end.plan|
      ensures !HadProblem(end, k)
    {
      assert CleanRow(end, k);
    }
  }

  /** An attempt that is not interrupted finishes, with every module passed and the rows at its claim
      remembered. */
  lemma EndOfAttempt(init: State, steps: seq<Step>, w: World)
    requires Initial(init) && Run(init, steps).Some?
    requires Run(init, steps).value.pc == Dispatching && Uninterrupted(w, Run(init, steps).value)
    ensures var s := Run(init, steps).value;
            var end := Drive(w, s);
            && Fits(end) && end.plan == s.plan && end.atClaim == s.db.rows && end.pc == Ended(Finished)
            && AllPassed(end, |end.plan|)
            && (end.db.status == RowsVerdict(end.db.rows) <==>
                  SomeProblem(end, |end.plan|) || forall j | 0 <= j < |end.plan| :: !CarriedOver(end, j))
  {
    var s := Run(init, steps).value;
    NextKeeps(w, s);
    LoopEndsCanceledExactly(w, Apply(s, Dispatch(true)));
    DriveKeepsClaim(w, s);
    var more := DriveIsARun(w, s);
    RunsConcatenate(init, steps, more);
    RunsKeepOrder(init, steps);
    RunsKeepOrder(init, steps + more);
    RowsTellTheStatusExactly(init, steps + more);
  }

  /** At the claim of any attempt it is known whether its rows will tell its status: whatever the modules
      return, they will, if and only if no module that applies has a message on its row. */
  lemma RowsWillTellExactly(init: State, steps: seq<Step>)
    requires Initial(init) && Run(init, steps).Some?
    requires Run(init, steps).value.pc == Dispatching && !Run(init, steps).value.db.cancel
    ensures var s := Run(init, steps).value;
            && Fits(s)
            && (RowsWillTell(s) <==> forall j | 0 <= j < |s.plan| && s.plan[j] :: s.db.rows[j].message == None)
  {
    var s := Run(init, steps).value;
    RunsFit(init, steps);
    if j: nat :| j < |s.plan| && s.plan[j] && s.db.rows[j].message.Some? {
      var w := AllClean(|init.plan|);
      CleanAttempt(init, steps, j);
      EndOfAttempt(init, steps, w);
      assert CarriedOver(Drive(w, s), j);
      assert !RowsWillTell(s);
    } else {
      forall w | Uninterrupted(w, s)
        ensures Drive(w, s).db.status == RowsVerdict(Drive(w, s).db.rows)
      {
        EndOfAttempt(init, steps, w);
        var end := Drive(w, s);
        forall j: nat | j < |end.plan|
          ensures !CarriedOver(end, j)
        {
          assert Passed(end, j);
        }
      }
    }
  }
}
