/** What the durable rows of a scan mean at every point of every run, and so at every point where the
    worker can stop: a module row marked done has all its findings committed. */
module ScanDurability {
  import opened Wrappers
  import opened Domain
  import opened ScanExecution

  /** The findings stored by one attempt of one module, in the order they were stored. */
  function StoredOf(findings: seq<Stored>, m: nat, attempt: nat): seq<Finding> {
    if findings == [] then [] else
    var last := findings[|findings| - 1];
    StoredOf(findings[..|findings| - 1], m, attempt)
    + if last.m == m && last.attempt == attempt then [last.finding] else []
  }

  lemma TaggedOneMore(m: nat, attempt: nat, init: seq<Finding>, last: Finding)
    ensures Tagged(m, attempt, init + [last]) == Tagged(m, attempt, init) + [Stored(m, attempt, last)]
  {
  }

  lemma {:induction false} StoredOfTagged(findings: seq<Stored>, m: nat, attempt: nat, more: seq<Finding>, j: nat,
      a: nat)
    ensures StoredOf(findings + Tagged(m, attempt, more), j, a)
         == StoredOf(findings, j, a) + if j == m && a == attempt then more else []
  {
    if more == [] {
      assert findings + Tagged(m, attempt, more) == findings;
    } else {
      var init, last := more[..|more| - 1], more[|more| - 1];
      StoredOfTagged(findings, m, attempt, init, j, a);
      assert more == init + [last];
      TaggedOneMore(m, attempt, init, last);
      var before := findings + Tagged(m, attempt, init);
      assert findings + Tagged(m, attempt, more) == before + [Stored(m, attempt, last)];
    }
  }

  /** The row tells what the module returned in its latest attempt, and all of it is stored. */
  predicate Complete(s: State, j: nat)
    requires j < |s.db.rows| && j < |s.returned|
  {
    var row := s.db.rows[j];
    && s.returned[j].Some?
    && row.findingCount == |s.returned[j].value.findings|
    && row.cacheHit == s.returned[j].value.cacheHit
    && StoredOf(s.db.findings, j, row.attempts) == s.returned[j].value.findings
  }

  ghost predicate NothingBeyond(db: Db, j: nat)
    requires j < |db.rows|
  {
    forall a: nat | a > db.rows[j].attempts :: StoredOf(db.findings, j, a) == []
  }

  /** What is known while the executor is inside module j. */
  predicate Underway(s: State, j: nat)
    requires j < |s.db.rows| && j < |s.returned|
  {
    var row, pc := s.db.rows[j], s.pc;
    && ((pc.InBody? || pc.Storing?) && pc.i == j ==>
          row.status.ModuleRunning? && StoredOf(s.db.findings, j, row.attempts) == [])
    && (pc.Storing? && pc.i == j ==> s.returned[j] == Some(pc.result))
    && (pc.Marking? && pc.i == j ==>
          && row.status.ModuleRunning? && s.returned[j] == Some(pc.result)
          && StoredOf(s.db.findings, j, row.attempts) == pc.result.findings)
  }

  ghost predicate Told(s: State, j: nat) {
    && Fits(s) && j < |s.plan|
    && NothingBeyond(s.db, j)
    && Underway(s, j)
    && (s.db.rows[j].status.Done? ==> Complete(s, j))
  }

  lemma EnterKeepsTold(s: State, i: nat, j: nat)
    requires Told(s, j) && Enabled(s, Enter(i))
    ensures Told(Apply(s, Enter(i)), j)
  {
  }

  lemma StoreKeepsTold(s: State, j: nat)
    requires Told(s, j) && Enabled(s, Store)
    ensures Told(Apply(s, Store), j)
  {
    var after := Apply(s, Store);
    var Storing(i, result) := s.pc;
    forall a: nat
      ensures StoredOf(after.db.findings, j, a)
           == StoredOf(s.db.findings, j, a) + if j == i && a == s.db.rows[i].attempts then result.findings else []
    {
      StoredOfTagged(s.db.findings, i, s.db.rows[i].attempts, result.findings, j, a);
    }
  }

  lemma StepKeepsTold(s: State, step: Step, j: nat)
    requires Told(s, j) && Enabled(s, step)
    ensures Told(Apply(s, step), j)
  {
    if step.Enter? {
      EnterKeepsTold(s, step.i, j);
    } else if step.Store? {
      StoreKeepsTold(s, j);
    } else {
      StepFits(s, step);
      assert Apply(s, step).db.findings == s.db.findings;
      assert Apply(s, step).db.rows[j].attempts == s.db.rows[j].attempts;
    }
  }

  lemma {:induction false} RunsKeepTold(init: State, steps: seq<Step>, j: nat)
    requires Initial(init) && Run(init, steps).Some? && j < |init.plan|
    ensures Told(Run(init, steps).value, j)
  {
    if steps != [] {
      RunsKeepTold(init, steps[..|steps| - 1], j);
      StepKeepsTold(Run(init, steps[..|steps| - 1]).value, steps[|steps| - 1], j);
    }
  }

  /** After every run, so at every point where the worker can stop: a row marked done has all findings of the
      attempt that marked it committed, in the order the module returned them, and counts them. */
  lemma DoneMeansStored(init: State, steps: seq<Step>, j: nat)
    requires Initial(init) && Run(init, steps).Some? && j < |init.plan|
    ensures var s := Run(init, steps).value;
            && Fits(s) && j < |s.plan|
            && (s.db.rows[j].status.Done? ==>
                  && Complete(s, j)
                  && s.db.rows[j].findingCount == |StoredOf(s.db.findings, j, s.db.rows[j].attempts)|)
  {
    RunsKeepTold(init, steps, j);
  }

  /** The attempts on a row are the entries into running. */
  lemma {:induction false} AttemptsCountEntries(init: State, steps: seq<Step>, j: nat)
    requires Initial(init) && Run(init, steps).Some? && j < |init.plan|
    ensures Fits(Run(init, steps).value) && j < |Run(init, steps).value.plan|
    ensures Run(init, steps).value.db.rows[j].attempts == multiset(steps)[Enter(j)]
  {
    RunsFit(init, steps);
    if steps != [] {
      var earlier, step := steps[..|steps| - 1], steps[|steps| - 1];
      AttemptsCountEntries(init, earlier, j);
      RunsFit(init, earlier);
      assert steps == earlier + [step];
      StepMovesAttempts(Run(init, earlier).value, step, j);
    }
  }

  lemma StepMovesAttempts(s: State, step: Step, j: nat)
    requires Enabled(s, step) && j < |s.plan|
    ensures Fits(Apply(s, step)) && Apply(s, step).plan == s.plan
    ensures Apply(s, step).db.rows[j].attempts == s.db.rows[j].attempts + if step == Enter(j) then 1 else 0
  {
    StepFits(s, step);
  }

  /** No step takes a committed finding away. */
  lemma StepKeepsFindings(s: State, step: Step)
    requires Enabled(s, step)
    ensures s.db.findings <= Apply(s, step).db.findings
    ensures Apply(s, step).db.findings != s.db.findings ==> step.Store?
  {
  }

  /** Whatever has been committed stays committed, through crashes and further attempts. */
  lemma {:induction false} FindingsAreNeverLost(init: State, steps: seq<Step>, k: nat)
    requires k <= |steps| && Run(init, steps).Some?
    ensures Run(init, steps[..k]).Some?
    ensures Run(init, steps[..k]).value.db.findings <= Run(init, steps).value.db.findings
  {
    if k == |steps| {
      assert steps[..k] == steps;
    } else {
      var earlier := steps[..|steps| - 1];
      assert earlier[..k] == steps[..k];
      FindingsAreNeverLost(init, earlier, k);
      StepKeepsFindings(Run(init, earlier).value, steps[|steps| - 1]);
    }
  }

  // ---- which rows can be running, and what recovery does ----

  predicate StatusFits(s: State) {
    match s.pc
    case Dead => s.db.status == ScanStatus.Queued || s.db.status == ScanStatus.Running
    case Closing(status, _) => s.db.status == ScanStatus.Running && status.IsTerminal()
    case Ended(_) => s.db.status.IsTerminal()
    case _ => s.db.status == ScanStatus.Running
  }

  /** Inside module j, after its row was set to running and before it is set to its outcome. */
  predicate Inside(pc: Pc, j: nat) {
    (pc.InBody? || pc.Failing? || pc.Storing? || pc.Marking?) && pc.i == j
  }

  /** A row is running exactly while the executor is inside its module; only a crash can leave it so, until
      the scan is queued again. */
  predicate RunningFits(s: State, j: nat) {
    && Fits(s) && j < |s.plan|
    && (Inside(s.pc, j) ==> s.db.rows[j].status.ModuleRunning?)
    && (s.db.rows[j].status.ModuleRunning? ==> Inside(s.pc, j) || (s.pc.Dead? && s.db.status == ScanStatus.Running))
  }

  lemma StepKeepsPlace(s: State, step: Step, j: nat)
    requires StatusFits(s) && RunningFits(s, j) && Enabled(s, step)
    ensures RunningFits(Apply(s, step), j)
  {
    StepFits(s, step);
  }

  lemma StepKeepsStatusFits(s: State, step: Step)
    requires StatusFits(s) && Enabled(s, step)
    ensures StatusFits(Apply(s, step))
  {
  }

  lemma {:induction false} RunsKeepPlace(init: State, steps: seq<Step>, j: nat)
    requires Initial(init) && Run(init, steps).Some? && j < |init.plan|
    ensures StatusFits(Run(init, steps).value) && RunningFits(Run(init, steps).value, j)
  {
    if steps != [] {
      var before, step := Run(init, steps[..|steps| - 1]).value, steps[|steps| - 1];
      RunsKeepPlace(init, steps[..|steps| - 1], j);
      StepKeepsPlace(before, step, j);
      StepKeepsStatusFits(before, step);
    }
  }

  /** A row becomes done in one way only: its module returned, its findings are committed, and the executor
      marks it. Neither recovery nor a cancel produces one. */
  lemma OnlyMarkingMakesDone(s: State, step: Step, j: nat)
    requires Enabled(s, step) && j < |s.plan|
    requires !s.db.rows[j].status.Done?
    ensures Fits(Apply(s, step)) && j < |Apply(s, step).db.rows|
    ensures Apply(s, step).db.rows[j].status.Done? <==> step.Mark? && s.pc.i == j
  {
    StepFits(s, step);
  }

  lemma {:induction false} RunsKeepAllPlaces(init: State, steps: seq<Step>)
    requires Initial(init) && Run(init, steps).Some?
    ensures StatusFits(Run(init, steps).value) && Fits(Run(init, steps).value)
    ensures forall m: nat | m < |Run(init, steps).value.plan| :: RunningFits(Run(init, steps).value, m)
  {
    RunsFit(init, steps);
    forall m: nat | m < |init.plan|
      ensures RunningFits(Run(init, steps).value, m)
    {
      RunsKeepPlace(init, steps, m);
    }
    if steps != [] {
      RunsKeepAllPlaces(init, steps[..|steps| - 1]);
      StepKeepsStatusFits(Run(init, steps[..|steps| - 1]).value, steps[|steps| - 1]);
    }
  }

  /** Nothing is running and nothing else than running rows differs. */
  predicate Settled(s: Db, t: Db) {
    && |t.rows| == |s.rows| && t.findings == s.findings && t.cancel == s.cancel
    && t.status != ScanStatus.Running
    && forall j | 0 <= j < |s.rows| ::
         && !t.rows[j].status.ModuleRunning?
         && (s.rows[j].status.ModuleRunning? ==>
               t.rows[j] == s.rows[j].(status := Interrupted, message := Some(STOPPED)))
         && (!s.rows[j].status.ModuleRunning? ==> t.rows[j] == s.rows[j])
  }

  /** Recovery after any run leaves no row running and the scan not running; what was running is interrupted
      and says why. Everything else, the findings and the cancel flag included, stays as it was, and a
      terminal scan is not touched at all. */
  lemma RecoverySettles(init: State, steps: seq<Step>)
    requires Initial(init) && Run(init, steps + [Recover]).Some?
    ensures Run(init, steps).Some? && Settled(Run(init, steps).value.db, Run(init, steps + [Recover]).value.db)
    ensures Run(init, steps).value.db.status.IsTerminal() ==>
              Run(init, steps + [Recover]).value.db == Run(init, steps).value.db
  {
    assert (steps + [Recover])[..|steps|] == steps;
    RunsKeepAllPlaces(init, steps);
    if Run(init, steps).value.db.status.IsTerminal() {
      RecoverKeepsTerminal(Run(init, steps).value);
    }
  }

  lemma RecoverKeepsTerminal(s: State)
    requires Enabled(s, Recover) && StatusFits(s) && s.db.status.IsTerminal()
    requires forall m: nat | m < |s.plan| :: RunningFits(s, m)
    ensures Apply(s, Recover).db == s.db
  {
    forall k: nat | k < |s.db.rows|
      ensures AllInterrupted(s.db.rows)[k] == s.db.rows[k]
    {
      assert RunningFits(s, k);
    }
    assert AllInterrupted(s.db.rows) == s.db.rows;
  }
}
