/** What a crash between committing the findings of a module and marking its row leaves behind. */
module ScanLeftovers {
  import opened Wrappers
  import opened Domain
  import opened ScanExecution
  import opened ScanOutcome

  /** A run that leads from `init` to `s`. */
  predicate Leads(init: State, steps: seq<Step>, s: State) {
    Run(init, steps) == Some(s)
  }

  /** A scan of one module, just claimed, whose cancel flag is not set. */
  predicate Claimed(s: State) {
    Fits(s) && s.plan == [true] && s.pc == Dispatching && !s.db.cancel
  }

  /** From the claim to just before the row is marked. */
  lemma UpToMarking(init: State, steps: seq<Step>, s: State, result: ModuleResult)
    returns (longer: seq<Step>, after: State)
    requires Leads(init, steps, s) && Claimed(s)
    ensures Leads(init, longer, after) && Fits(after)
    ensures after == s.(
      db := s.db.(rows := [SetRunning(s.db.rows[0])],
                  findings := s.db.findings + Tagged(0, s.db.rows[0].attempts + 1, result.findings)),
      pc := Marking(0, result),
      memory := Memory(true, result.warnings != [], result.findings),
      returned := [Some(result)])
  {
    var checking := s.(pc := Checking(0), memory := Memory(false, false, []));
    RunOn(init, steps, Dispatch(true));
    var entering := checking.(pc := Entering(0));
    RunOn(init, steps + [Dispatch(true)], Check);
    longer := steps + [Dispatch(true)] + [Check];
    longer, after := RunTheModule(init, longer, entering, result);
  }

  lemma RunTheModule(init: State, steps: seq<Step>, s: State, result: ModuleResult)
    returns (longer: seq<Step>, after: State)
    requires Leads(init, steps, s) && Fits(s) && s.plan == [true] && s.pc == Entering(0)
    requires s.memory == Memory(false, false, [])
    ensures Leads(init, longer, after) && Fits(after)
    ensures after == s.(
      db := s.db.(rows := [SetRunning(s.db.rows[0])],
                  findings := s.db.findings + Tagged(0, s.db.rows[0].attempts + 1, result.findings)),
      pc := Marking(0, result),
      memory := Memory(true, result.warnings != [], result.findings),
      returned := [Some(result)])
  {
    var inBody := Apply(s, Enter(0));
    assert inBody.db.rows == [SetRunning(s.db.rows[0])] && inBody.returned == [None];
    RunOn(init, steps, Enter(0));
    var storing := Apply(inBody, Body(Returned(result)));
    assert storing.memory == Memory(true, result.warnings != [], result.findings) && storing.returned == [Some(result)];
    RunOn(init, steps + [Enter(0)], Body(Returned(result)));
    after := Apply(storing, Store);
    RunOn(init, steps + [Enter(0)] + [Body(Returned(result))], Store);
    longer := steps + [Enter(0)] + [Body(Returned(result))] + [Store];
  }

  /** The crash, and the next claim of the scan. */
  lemma CrashAndClaim(init: State, steps: seq<Step>, s: State) returns (longer: seq<Step>, after: State)
    requires Leads(init, steps, s) && Fits(s) && s.pc.Marking? && s.db.status == ScanStatus.Running
    ensures Leads(init, longer, after) && Fits(after)
    ensures after == s.(db := s.db.(rows := AllInterrupted(s.db.rows)),
                        pc := Dispatching, atClaim := AllInterrupted(s.db.rows))
  {
    RunOn(init, steps, Crash);
    RunOn(init, steps + [Crash], Recover);
    RunOn(init, steps + [Crash] + [Recover], Claim);
    longer := steps + [Crash] + [Recover] + [Claim];
    after := Apply(Apply(Apply(s, Crash), Recover), Claim);
  }

  /** From marking the last row to the end. */
  lemma MarkAndClose(init: State, steps: seq<Step>, s: State) returns (longer: seq<Step>, after: State)
    requires Leads(init, steps, s) && Fits(s) && s.plan == [true] && s.pc.Marking? && !s.db.cancel
    ensures Leads(init, longer, after) && Fits(after)
    ensures after == s.(db := s.db.(status := VerdictOf(s.memory), rows := [SetDone(s.db.rows[0], s.pc.result)]),
                        pc := Ended(Finished))
  {
    var marked := Apply(s, Mark);
    assert marked.db.rows == [SetDone(s.db.rows[0], s.pc.result)];
    RunOn(init, steps, Mark);
    RunOn(init, steps + [Mark], Check);
    RunOn(init, steps + [Mark] + [Check], Close);
    longer := steps + [Mark] + [Check] + [Close];
    after := Apply(Apply(marked, Check), Close);
  }

  function NewScan(): State {
    State([true], Db(ScanStatus.Queued, false, [Fresh()], []), Dead, Memory(false, false, []), [None], [Fresh()])
  }

  /** The first attempt, up to the claim after the crash. */
  lemma FirstAttempt(result: ModuleResult) returns (init: State, steps: seq<Step>, s: State)
    ensures Initial(init) && Leads(init, steps, s) && Claimed(s)
    ensures s.db.findings == Tagged(0, 1, result.findings)
    ensures s.db.rows[0] == Row(Interrupted, 1, 0, false, Some(STOPPED), None)
  {
    init := NewScan();
    RunOn(init, [], Claim);
    steps, s := [] + [Claim], Apply(init, Claim);
    steps, s := UpToMarking(init, steps, s, result);
    steps, s := CrashAndClaim(init, steps, s);
  }

  /** For every result without warnings there is a run, with one crash, after which the scan is completed,
      its only module is done with the findings counted once, the findings are stored twice, and the row
      still carries the message of the crash, so that the rows alone read as completed with warnings. */
  lemma CrashLeavesItsMarks(result: ModuleResult) returns (init: State, steps: seq<Step>, s: State)
    requires result.warnings == []
    ensures Initial(init) && Leads(init, steps, s) && |s.db.rows| == 1
    ensures s.db.status == Completed
    ensures s.db.rows[0].status.Done? && s.db.rows[0].attempts == 2 && s.db.rows[0].findingCount == |result.findings|
    ensures s.db.findings == Tagged(0, 1, result.findings) + Tagged(0, 2, result.findings)
    ensures s.db.rows[0].message == Some(STOPPED) && RowsVerdict(s.db.rows) == CompletedWithWarnings
  {
    init, steps, s := FirstAttempt(result);
    steps, s := UpToMarking(init, steps, s, result);
    steps, s := MarkAndClose(init, steps, s);
    assert Complains(s.db.rows[0]);
  }
}
