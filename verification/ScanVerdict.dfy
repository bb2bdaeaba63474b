/** The final status of a scan is what its module rows say, and each module is given what the successful
    modules before it found. */
module ScanVerdict {
  import opened Wrappers
  import opened Domain
  import opened ScanExecution
  import opened ScanDurability

  // ---- what the rows of the first i modules add up to ----

  function AddRow(memory: Memory, row: Row, returned: Option<ModuleResult>): Memory {
    if row.status.Done? && returned.Some? then AddReturned(memory, returned.value)
    else if row.status.ModuleFailed? then memory.(anyProblem := true)
    else memory
  }

  function Tally(rows: seq<Row>, returned: seq<Option<ModuleResult>>, i: nat): Memory
    requires i <= |rows| == |returned|
  {
    if i == 0 then Memory(false, false, []) else AddRow(Tally(rows, returned, i - 1), rows[i - 1], returned[i - 1])
  }

  lemma {:induction false} TallyLooksBack(rows: seq<Row>, returned: seq<Option<ModuleResult>>,
                                          rows': seq<Row>, returned': seq<Option<ModuleResult>>, i: nat)
    requires i <= |rows| == |returned| == |rows'| == |returned'|
    requires rows[..i] == rows'[..i] && returned[..i] == returned'[..i]
    ensures Tally(rows, returned, i) == Tally(rows', returned', i)
  {
    if i > 0 {
      assert rows[..i][..i - 1] == rows[..i - 1] && rows'[..i][..i - 1] == rows'[..i - 1];
      assert returned[..i][..i - 1] == returned[..i - 1] && returned'[..i][..i - 1] == returned'[..i - 1];
      assert rows[..i][i - 1] == rows'[..i][i - 1] && returned[..i][i - 1] == returned'[..i][i - 1];
      TallyLooksBack(rows, returned, rows', returned', i - 1);
    }
  }

  // ---- the invariant of the loop ----

  /** A module this attempt has passed, having run it if it applies. A message that the attempt did not
      write is left from before. */
  predicate Passed(s: State, j: nat)
    requires Fits(s) && j < |s.plan|
  {
    var row := s.db.rows[j];
    && (row.status.NotApplicable? <==> !s.plan[j])
    && (row.status.NotApplicable? || row.status.ModuleFailed? || row.status.Done?)
    && row.attempts == s.atClaim[j].attempts + (if s.plan[j] then 1 else 0)
    && (row.status.ModuleFailed? ==> row.message.Some?)
    && (row.status.Done? ==>
          && s.returned[j].Some?
          && row.message == if s.returned[j].value.warnings != [] then Some(Join(s.returned[j].value.warnings))
                            else s.atClaim[j].message)
  }

  predicate AllPassed(s: State, i: nat)
    requires Fits(s) && i <= |s.plan|
  {
    forall j | 0 <= j < i :: Passed(s, j)
  }

  /** What the variables of the loop hold at position i. */
  predicate Remembers(s: State, i: nat)
    requires Fits(s) && i <= |s.plan|
  {
    var tally := Tally(s.db.rows, s.returned, i);
    match s.pc
    case Failing(_, _, _) => s.memory == tally.(anyProblem := true)
    case Storing(_, result) => s.memory == AddReturned(tally, result)
    case Marking(_, result) => s.memory == AddReturned(tally, result)
    case _ => s.memory == tally
  }

  predicate UntouchedFrom(s: State, i: nat)
    requires Fits(s)
  {
    && (forall j | i < j < |s.plan| :: s.db.rows[j] == s.atClaim[j])
    && (i < |s.plan| ==>
          && s.db.rows[i].message == s.atClaim[i].message
          && s.db.rows[i].attempts == s.atClaim[i].attempts + if Inside(s.pc, i) then 1 else 0)
    && (s.pc.Storing? || s.pc.Marking? ==> i < |s.plan| && s.returned[i] == Some(s.pc.result))
    && (HasModule(s.pc) ==> i < |s.plan| && (s.plan[i] <==> !s.pc.Declining?))
  }

  predicate Looping(s: State, i: nat) {
    Fits(s) && i <= |s.plan| && AllPassed(s, i) && UntouchedFrom(s, i) && Remembers(s, i)
  }

  predicate AllTerminal(rows: seq<Row>) {
    forall j | 0 <= j < |rows| :: !rows[j].status.ModuleQueued? && !rows[j].status.ModuleRunning?
  }

  predicate Decided(s: State, status: ScanStatus, why: Why) {
    && Fits(s)
    && match why
       case Refused => status == ScanStatus.Failed && s.db.rows == s.atClaim
       case CancelSeen => status == Canceled && s.db.cancel && AllTerminal(s.db.rows)
       case Finished => AllPassed(s, |s.plan|) && status == VerdictOf(Tally(s.db.rows, s.returned, |s.plan|))
  }

  predicate InOrder(s: State) {
    match s.pc
    case Dead => true
    case Dispatching => s.db.rows == s.atClaim
    case Skipping => s.db.cancel
    case Closing(status, why) => Decided(s, status, why)
    case Ended(why) => Decided(s, s.db.status, why)
    case _ => Looping(s, s.pc.i)
  }

  // ---- the steps keep it ----

  /** The three ways to finish module i. */
  predicate Finishes(step: Step) {
    step.Decline? || step.Fail? || step.Mark?
  }

  lemma PassedStays(s: State, t: State, i: nat)
    requires Looping(s, i) && Fits(t) && t.plan == s.plan && t.atClaim == s.atClaim
    requires t.db.rows[..i] == s.db.rows[..i] && t.returned[..i] == s.returned[..i]
    ensures AllPassed(t, i) && Tally(t.db.rows, t.returned, i) == Tally(s.db.rows, s.returned, i)
  {
    TallyLooksBack(s.db.rows, s.returned, t.db.rows, t.returned, i);
    forall j | 0 <= j < i
      ensures Passed(t, j)
    {
      assert Passed(s, j);
      assert t.db.rows[..i][j] == s.db.rows[..i][j] && t.returned[..i][j] == s.returned[..i][j];
    }
  }

  lemma FinishingKeepsOrder(s: State, step: Step)
    requires InOrder(s) && Enabled(s, step) && Finishes(step)
    ensures InOrder(Apply(s, step))
  {
    var i, t := s.pc.i, Apply(s, step);
    PassedStays(s, t, i);
    assert Passed(t, i);
    assert Looping(t, i + 1);
  }

  lemma EnteringKeepsOrder(s: State, i: nat)
    requires InOrder(s) && Enabled(s, Enter(i))
    ensures InOrder(Apply(s, Enter(i)))
  {
    PassedStays(s, Apply(s, Enter(i)), i);
  }

  lemma BodyKeepsOrder(s: State, outcome: Outcome)
    requires InOrder(s) && Enabled(s, Body(outcome))
    ensures InOrder(Apply(s, Body(outcome)))
  {
    PassedStays(s, Apply(s, Body(outcome)), s.pc.i);
  }

  lemma StoreKeepsOrder(s: State)
    requires InOrder(s) && Enabled(s, Store)
    ensures InOrder(Apply(s, Store))
  {
    PassedStays(s, Apply(s, Store), s.pc.i);
  }

  lemma CheckKeepsOrder(s: State)
    requires InOrder(s) && Enabled(s, Check)
    ensures InOrder(Apply(s, Check))
  {
    PassedStays(s, Apply(s, Check), s.pc.i);
  }

  lemma CancelKeepsOrder(s: State)
    requires InOrder(s) && Enabled(s, Cancel)
    ensures InOrder(Apply(s, Cancel))
  {
    var t := Apply(s, Cancel);
    if s.pc.Checking? || HasModule(s.pc) {
      PassedStays(s, t, s.pc.i);
    } else if s.pc.Closing? || s.pc.Ended? {
      assert forall j | 0 <= j < |s.plan| && Passed(s, j) :: Passed(t, j);
    }
  }

  lemma EndingKeepsOrder(s: State, step: Step)
    requires InOrder(s) && Enabled(s, step) && (step.Skip? || step.Close? || step.Dispatch? || step.Claim?)
    ensures InOrder(Apply(s, step))
  {
    var t := Apply(s, step);
    if step.Close? {
      assert forall j | 0 <= j < |s.plan| && Passed(s, j) :: Passed(t, j);
    }
  }

  lemma StepKeepsOrder(s: State, step: Step)
    requires InOrder(s) && Enabled(s, step)
    requires step.Recover? && s.pc.Ended? ==> Apply(s, step) == s
    ensures InOrder(Apply(s, step))
  {
    if Finishes(step) {
      FinishingKeepsOrder(s, step);
    } else {
      match step
      case Enter(i) => EnteringKeepsOrder(s, i);
      case Body(outcome) => BodyKeepsOrder(s, outcome);
      case Store => StoreKeepsOrder(s);
      case Check => CheckKeepsOrder(s);
      case Cancel => CancelKeepsOrder(s);
      case Crash => {}
      case Recover => {}
      case _ => EndingKeepsOrder(s, step);
    }
  }

  lemma {:induction false} RunsKeepOrder(init: State, steps: seq<Step>)
    requires Initial(init) && Run(init, steps).Some?
    ensures InOrder(Run(init, steps).value)
  {
    if steps != [] {
      var earlier, step := steps[..|steps| - 1], steps[|steps| - 1];
      var s := Run(init, earlier).value;
      RunsKeepOrder(init, earlier);
      if step.Recover? && s.pc.Ended? {
        RunsKeepAllPlaces(init, earlier);
        RecoverKeepsTerminal(s);
      }
      StepKeepsOrder(s, step);
    }
  }
}
