/** The module loop as it is written, with its local flags and list, and the proof that it takes the steps
    of the step relation in `ScanExecution`. */
module ScanLoop {
  import opened Wrappers
  import opened Domain
  import opened ScanExecution

  /** What happens outside the loop: whether the dispatch is accepted, how each module ends, and before
      which cancel check a request is committed, if it is. */
  datatype World = World(accepted: bool, outcomes: seq<Outcome>, arrives: nat)

  predicate Covers(w: World, s: State) {
    Fits(s) && |w.outcomes| == |s.plan| && s.db.status == ScanStatus.Running && !s.pc.Dead?
  }

  /** The next step of an executor that does not crash. */
  function Next(w: World, s: State): (step: Step)
    requires Covers(w, s) && !s.pc.Ended?
    ensures Enabled(s, step)
  {
    match s.pc
    case Dispatching => Dispatch(w.accepted)
    case Checking(i) => if w.arrives <= i && !s.db.cancel then Cancel else Check
    case Declining(_) => Decline
    case Entering(i) => Enter(i)
    case InBody(i) => Body(w.outcomes[i])
    case Failing(_, _, _) => Fail
    case Storing(_, _) => Store
    case Marking(_, _) => Mark
    case Skipping => Skip
    case Closing(_, _) => Close
  }

  lemma NextKeeps(w: World, s: State)
    requires Covers(w, s) && !s.pc.Ended?
    ensures Fits(Apply(s, Next(w, s))) && Apply(s, Next(w, s)).plan == s.plan
    ensures !Apply(s, Next(w, s)).pc.Ended? ==> Covers(w, Apply(s, Next(w, s)))
    ensures Next(w, s) != Cancel ==> Remaining(Apply(s, Next(w, s))) < Remaining(s)
    ensures Next(w, s) == Cancel ==> Apply(s, Next(w, s)) == s.(db := s.db.(cancel := true))
  {
    StepFits(s, Next(w, s));
    AttemptsEnd(s, Next(w, s));
  }

  /** Where the executor ends. */
  function Drive(w: World, s: State): (end: State)
    requires s.pc.Ended? || Covers(w, s)
    ensures end.pc.Ended?
    decreases if Fits(s) then Remaining(s) else 0, !s.db.cancel
  {
    if s.pc.Ended? then s else
    NextKeeps(w, s);
    Drive(w, Apply(s, Next(w, s)))
  }

  /** The loop is one of the runs the properties of `ScanExecution` are about. */
  lemma {:induction false} DriveIsARun(w: World, s: State) returns (steps: seq<Step>)
    requires s.pc.Ended? || Covers(w, s)
    ensures Run(s, steps) == Some(Drive(w, s))
    ensures forall step | step in steps :: !step.Crash? && !step.Recover? && !step.Claim?
    decreases if Fits(s) then Remaining(s) else 0, !s.db.cancel
  {
    steps := [];
    if !s.pc.Ended? {
      NextKeeps(w, s);
      var t, first := Apply(s, Next(w, s)), Next(w, s);
      var rest := DriveIsARun(w, t);
      steps := [first] + rest;
      RunFromFirst(s, first, rest);
    }
  }

  lemma {:induction false} RunFromFirst(s: State, first: Step, rest: seq<Step>)
    requires Enabled(s, first)
    ensures Run(s, [first] + rest) == Run(Apply(s, first), rest)
  {
    if rest == [] {
      assert [first] + rest == [first] && [first][..0] == [];
      assert Run(s, [first][..0]) == Some(s);
    } else {
      RunFromFirst(s, first, rest[..|rest| - 1]);
      assert ([first] + rest)[..|[first] + rest| - 1] == [first] + rest[..|rest| - 1];
    }
  }

  // ---- the body of the loop in one step ----

  function AfterModule(s: State, i: nat, outcome: Outcome): State
    requires Fits(s) && i < |s.plan|
  {
    var row := SetRunning(s.db.rows[i]);
    match outcome
    case Raised(reason, code) =>
      s.(db := WithRow(s, i, SetEnded(row, ModuleFailed, Some(reason), Some(code), 0, false)), pc := Checking(i + 1),
         memory := s.memory.(anyProblem := true), returned := s.returned[i := None])
    case Returned(result) =>
      s.(db := s.db.(rows := s.db.rows[i := SetDone(row, result)],
                     findings := s.db.findings + Tagged(i, row.attempts, result.findings)),
         pc := Checking(i + 1), memory := AddReturned(s.memory, result), returned := s.returned[i := Some(result)])
  }

  lemma ModuleIsFiveSteps(w: World, s: State, i: nat)
    requires Covers(w, s) && s.pc == Entering(i)
    ensures Covers(w, AfterModule(s, i, w.outcomes[i]))
    ensures Drive(w, AfterModule(s, i, w.outcomes[i])) == Drive(w, s)
  {
    NextKeeps(w, s);
    var inBody := Apply(s, Enter(i));
    BodyIsFourSteps(w, inBody, i);
    assert AfterModule(s, i, w.outcomes[i]).db.rows == FromBody(inBody, i, w.outcomes[i]).db.rows;
    assert AfterModule(s, i, w.outcomes[i]).returned == FromBody(inBody, i, w.outcomes[i]).returned;
  }

  function FromBody(s: State, i: nat, outcome: Outcome): State
    requires Fits(s) && i < |s.plan|
  {
    var row := s.db.rows[i];
    match outcome
    case Raised(reason, code) =>
      s.(db := WithRow(s, i, SetEnded(row, ModuleFailed, Some(reason), Some(code), 0, false)), pc := Checking(i + 1),
         memory := s.memory.(anyProblem := true))
    case Returned(result) =>
      s.(db := s.db.(rows := s.db.rows[i := SetDone(row, result)],
                     findings := s.db.findings + Tagged(i, row.attempts, result.findings)),
         pc := Checking(i + 1), memory := AddReturned(s.memory, result), returned := s.returned[i := Some(result)])
  }

  lemma FailingEnds(w: World, s: State, i: nat)
    requires Covers(w, s) && s.pc.Failing? && s.pc.i == i
    ensures var row := SetEnded(s.db.rows[i], ModuleFailed, Some(s.pc.reason), Some(s.pc.code), 0, false);
            var t := s.(db := WithRow(s, i, row),
                        pc := Checking(i + 1));
            Covers(w, t) && Drive(w, t) == Drive(w, s)
  {
    NextKeeps(w, s);
  }

  lemma StoringEnds(w: World, s: State, i: nat)
    requires Covers(w, s) && s.pc.Storing? && s.pc.i == i
    ensures var t := s.(db := s.db.(rows := s.db.rows[i := SetDone(s.db.rows[i], s.pc.result)],
                                    findings := s.db.findings + Tagged(i, s.db.rows[i].attempts, s.pc.result.findings)),
                        pc := Checking(i + 1));
            Covers(w, t) && Drive(w, t) == Drive(w, s)
  {
    NextKeeps(w, s);
  }

  lemma BodyIsFourSteps(w: World, s: State, i: nat)
    requires Covers(w, s) && s.pc == InBody(i)
    ensures Covers(w, FromBody(s, i, w.outcomes[i]))
    ensures Drive(w, FromBody(s, i, w.outcomes[i])) == Drive(w, s)
  {
    NextKeeps(w, s);
    var t := Apply(s, Body(w.outcomes[i]));
    if w.outcomes[i].Raised? {
      FailingEnds(w, t, i);
    } else {
      StoringEnds(w, t, i);
    }
  }

  // ---- the cancel check, and the ends ----

  function AfterRead(w: World, s: State): State
    requires s.pc.Checking? && s.pc.i <= |s.plan|
  {
    var t := s.(db := s.db.(cancel := s.db.cancel || w.arrives <= s.pc.i));
    t.(pc := AfterCheck(t))
  }

  lemma ReadIsTheCheck(w: World, s: State)
    requires Covers(w, s) && s.pc.Checking?
    ensures Covers(w, AfterRead(w, s)) && Drive(w, AfterRead(w, s)) == Drive(w, s)
  {
    NextKeeps(w, s);
    if Next(w, s) == Cancel {
      var t := Apply(s, Cancel);
      NextKeeps(w, t);
      assert Apply(t, Check) == AfterRead(w, s);
    } else {
      assert Apply(s, Check) == AfterRead(w, s);
    }
  }

  lemma SkippingEnds(w: World, s: State)
    requires Covers(w, s) && s.pc.Skipping?
    ensures Drive(w, s).db == s.db.(rows := AllSkipped(s.db.rows), status := Canceled)
  {
    NextKeeps(w, s);
    ClosingEnds(w, Apply(s, Skip));
  }

  lemma ClosingEnds(w: World, s: State)
    requires Covers(w, s) && s.pc.Closing?
    ensures Drive(w, s).db == s.db.(status := s.pc.status)
  {
    NextKeeps(w, s);
    assert Drive(w, Apply(s, Close)) == Apply(s, Close);
  }

  // ---- the code ----

  function StatusSet(row: Row, status: ModuleStatus, reason: Option<string>, code: Option<string>, count: nat,
                     hit: bool): Row
  {
    if status.ModuleRunning? then SetRunning(row).(message := Or(reason, row.message), code := Or(code, row.code))
    else SetEnded(row, status, reason, code, count, hit)
  }

  class ScanDatabase {
    var status: ScanStatus
    var cancelRequested: bool
    var rows: seq<Row>
    var findings: seq<Stored>

    ghost function Snapshot(): Db
      reads this
    {
      Db(status, cancelRequested, rows, findings)
    }

    constructor (plan: seq<bool>)
      ensures Snapshot() == Db(ScanStatus.Queued, false, seq(|plan|, _ => Fresh()), [])
    {
      status, cancelRequested, findings := ScanStatus.Queued, false, [];
      rows := seq(|plan|, _ => Fresh());
    }

    /** False stands for the error that the scan is terminal already. */
    method CancelScan() returns (accepted: bool)
      modifies `cancelRequested
      ensures accepted <==> !status.IsTerminal()
      ensures cancelRequested == (old(cancelRequested) || accepted)
    {
      if status.IsTerminal() {
        return false;
      }
      cancelRequested := true;
      return true;
    }

    /** Reads the flag; a request that arrives before this check is committed first. */
    method CancelRequested(arrived: bool) returns (requested: bool)
      modifies `cancelRequested
      ensures requested == cancelRequested == (old(cancelRequested) || arrived)
    {
      if arrived {
        cancelRequested := true;
      }
      return cancelRequested;
    }

    method SetModuleStatus(i: nat, status: ModuleStatus, reason: Option<string>, code: Option<string>, count: nat,
                           hit: bool)
      requires i < |rows|
      modifies `rows
      ensures rows == old(rows)[i := StatusSet(old(rows)[i], status, reason, code, count, hit)]
    {
      var row := rows[i].(status := status);
      if status.ModuleRunning? {
        row := row.(attempts := row.attempts + 1);
      } else {
        row := row.(findingCount := count, cacheHit := hit);
      }
      if reason.Some? {
        row := row.(message := reason);
      }
      if code.Some? {
        row := row.(code := code);
      }
      rows := rows[i := row];
    }

    method StoreFindings(i: nat, found: seq<Finding>)
      requires i < |rows|
      modifies `findings
      ensures findings == old(findings) + Tagged(i, rows[i].attempts, found)
    {
      for k := 0 to |found|
        invariant findings == old(findings) + Tagged(i, rows[i].attempts, found[..k])
      {
        findings := findings + [Stored(i, rows[i].attempts, found[k])];
        assert found[..k + 1] == found[..k] + [found[k]];
      }
      assert found[..|found|] == found;
    }

    method MarkRemainingSkipped()
      modifies `rows
      ensures rows == AllSkipped(old(rows))
    {
      for j := 0 to |rows|
        invariant |rows| == |old(rows)|
        invariant forall k | 0 <= k < |rows| :: rows[k] == if k < j then SkipRow(old(rows)[k]) else old(rows)[k]
      {
        if rows[j].status.ModuleQueued? || rows[j].status.ModuleRunning? {
          rows := rows[j := rows[j].(status := Skipped, message := Some(CANCELED))];
        }
      }
    }

    method Finish(status: ScanStatus) returns (result: ScanStatus)
      modifies `status
      ensures this.status == status == result
    {
      this.status := status;
      return status;
    }

    /** One module that applies: run it, and record how it ended. */
    method RunModule(i: nat, outcome: Outcome, memory: Memory, ghost s: State) returns (remembered: Memory)
      requires Fits(s) && i < |s.plan| && s.db == Snapshot() && s.memory == memory
      modifies `rows, `findings
      ensures Snapshot() == AfterModule(s, i, outcome).db && remembered == AfterModule(s, i, outcome).memory
    {
      SetModuleStatus(i, ModuleRunning, None, None, 0, false);
      match outcome {
        case Raised(reason, code) =>
          remembered := memory.(anyProblem := true);
          SetModuleStatus(i, ModuleFailed, Some(reason), Some(code), 0, false);
        case Returned(result) =>
          remembered := memory.(anySuccess := true);
          if result.warnings != [] {
            remembered := remembered.(anyProblem := true);
          }
          remembered := remembered.(produced := remembered.produced + result.findings);
          StoreFindings(i, result.findings);
          var reason := if result.warnings != [] then Some(Join(result.warnings)) else None;
          SetModuleStatus(i, Done, reason, None, |result.findings|, result.cacheHit);
      }
    }

    /** One turn of the loop, after its cancel check. */
    method VisitModule(i: nat, applies: bool, w: World, memory: Memory, ghost s: State)
      returns (remembered: Memory, ghost t: State)
      requires Covers(w, s) && s.pc == (if applies then Entering(i) else Declining(i))
      requires s.db == Snapshot() && s.memory == memory
      modifies `rows, `findings
      ensures Covers(w, t) && t.plan == s.plan && t.pc == Checking(i + 1) && Drive(w, t) == Drive(w, s)
      ensures t.db == Snapshot() && t.memory == remembered
    {
      if !applies {
        NextKeeps(w, s);
        t := Apply(s, Decline);
        SetModuleStatus(i, NotApplicable, Some(UNSUPPORTED), None, 0, false);
        remembered := memory;
      } else {
        ModuleIsFiveSteps(w, s, i);
        remembered := RunModule(i, w.outcomes[i], memory, s);
        t := AfterModule(s, i, w.outcomes[i]);
      }
    }

    method EndCanceled(w: World, ghost s: State) returns (result: ScanStatus)
      requires Covers(w, s) && s.pc.Skipping? && s.db == Snapshot()
      modifies `rows, `status
      ensures Snapshot() == Drive(w, s).db && result == status
    {
      SkippingEnds(w, s);
      MarkRemainingSkipped();
      result := Finish(Canceled);
    }

    method Conclude(memory: Memory, w: World, ghost s: State) returns (result: ScanStatus)
      requires Covers(w, s) && s.pc == Closing(VerdictOf(memory), Finished) && s.db == Snapshot()
      modifies `status
      ensures Snapshot() == Drive(w, s).db && result == status
    {
      ClosingEnds(w, s);
      if !memory.anySuccess {
        result := Finish(ScanStatus.Failed);
      } else if memory.anyProblem {
        result := Finish(CompletedWithWarnings);
      } else {
        result := Finish(Completed);
      }
    }

    /** The scan is claimed. The result and the database are those of the run that `Drive` describes. */
    method ExecuteScan(plan: seq<bool>, w: World, ghost start: State) returns (result: ScanStatus)
      requires Covers(w, start) && start.pc == Dispatching && start.plan == plan && start.db == Snapshot()
      modifies this
      ensures Snapshot() == Drive(w, start).db && result == status
    {
      ghost var s := start;
      NextKeeps(w, s);
      s := Apply(s, Dispatch(w.accepted));
      if !w.accepted {
        ClosingEnds(w, s);
        result := Finish(ScanStatus.Failed);
        return;
      }
      var memory := Memory(false, false, []);
      for i := 0 to |plan|
        invariant Covers(w, s) && s.plan == plan && s.pc == Checking(i) && s.db == Snapshot() && s.memory == memory
        invariant Drive(w, s) == Drive(w, start)
      {
        ReadIsTheCheck(w, s);
        s := AfterRead(w, s);
        var requested := CancelRequested(w.arrives <= i);
        if requested {
          result := EndCanceled(w, s);
          return;
        }
        memory, s := VisitModule(i, plan[i], w, memory, s);
      }
      ReadIsTheCheck(w, s);
      s := AfterRead(w, s);
      var requested := CancelRequested(w.arrives <= |plan|);
      if requested {
        result := EndCanceled(w, s);
        return;
      }
      result := Conclude(memory, w, s);
    }
  }
}
