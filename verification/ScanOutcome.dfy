/** What a scan that has run to its end shows: its status as a function of its module rows, the findings
    each module was given, and where the rows alone mislead. */
module ScanOutcome {
  import opened Domain
  import opened ScanExecution
  import opened ScanDurability
  import opened ScanVerdict

  // ---- the tally in terms of the rows ----

  predicate SomeDone(s: State, i: nat)
    requires Fits(s) && i <= |s.plan|
  {
    exists j :: 0 <= j < i && s.db.rows[j].status.Done?
  }

  /** Module j failed, or succeeded with warnings. */
  predicate HadProblem(s: State, j: nat)
    requires Fits(s) && j < |s.plan|
  {
    || s.db.rows[j].status.ModuleFailed?
    || (s.db.rows[j].status.Done? && s.returned[j].Some? && s.returned[j].value.warnings != [])
  }

  predicate SomeProblem(s: State, i: nat)
    requires Fits(s) && i <= |s.plan|
  {
    exists j :: 0 <= j < i && HadProblem(s, j)
  }

  /** The committed findings of the modules before i that are done, in the order the modules ran. */
  function StoredByDone(db: Db, i: nat): seq<Finding>
    requires i <= |db.rows|
  {
    if i == 0 then [] else
    StoredByDone(db, i - 1)
    + if db.rows[i - 1].status.Done? then StoredOf(db.findings, i - 1, db.rows[i - 1].attempts) else []
  }

  lemma {:induction false} TallyCounts(s: State, i: nat)
    requires Fits(s) && i <= |s.plan| && AllPassed(s, i)
    ensures Tally(s.db.rows, s.returned, i).anySuccess <==> SomeDone(s, i)
    ensures Tally(s.db.rows, s.returned, i).anyProblem <==> SomeProblem(s, i)
  {
    if i > 0 {
      TallyCounts(s, i - 1);
      assert Passed(s, i - 1);
      assert SomeDone(s, i) <==> SomeDone(s, i - 1) || s.db.rows[i - 1].status.Done?;
      assert SomeProblem(s, i) <==> SomeProblem(s, i - 1) || HadProblem(s, i - 1);
    }
  }

  lemma {:induction false} TallyProduces(s: State, i: nat)
    requires Fits(s) && i <= |s.plan| && AllPassed(s, i)
    requires forall j: nat | j < i && s.db.rows[j].status.Done? :: Complete(s, j)
    ensures Tally(s.db.rows, s.returned, i).produced == StoredByDone(s.db, i)
  {
    if i > 0 {
      TallyProduces(s, i - 1);
      assert Passed(s, i - 1);
      assert s.db.rows[i - 1].status.Done? ==> Complete(s, i - 1);
    }
  }

  lemma DoneRowsAreComplete(init: State, steps: seq<Step>)
    requires Initial(init) && Run(init, steps).Some?
    ensures var s := Run(init, steps).value;
            Fits(s) && forall j: nat | j < |s.plan| && s.db.rows[j].status.Done? :: Complete(s, j)
  {
    RunsFit(init, steps);
    forall j: nat | j < |init.plan| && Run(init, steps).value.db.rows[j].status.Done?
      ensures Complete(Run(init, steps).value, j)
    {
      DoneMeansStored(init, steps, j);
    }
  }

  // ---- the main results ----

  /** A module in its body is given the committed findings of the modules before it that are done, in order;
      each of them was run in this attempt. */
  lemma PriorFindingsAreTheCommittedOnes(init: State, steps: seq<Step>)
    requires Initial(init) && Run(init, steps).Some? && Run(init, steps).value.pc.InBody?
    ensures var s := Run(init, steps).value;
            && Fits(s)
            && s.memory.produced == StoredByDone(s.db, s.pc.i)
            && forall j | 0 <= j < s.pc.i && s.db.rows[j].status.Done? ::
                 s.db.rows[j].attempts == s.atClaim[j].attempts + 1
  {
    var s := Run(init, steps).value;
    RunsKeepOrder(init, steps);
    DoneRowsAreComplete(init, steps);
    TallyProduces(s, s.pc.i);
    forall j: nat | j < s.pc.i && s.db.rows[j].status.Done?
      ensures s.db.rows[j].attempts == s.atClaim[j].attempts + 1
    {
      assert Passed(s, j);
    }
  }

  /** A scan that ran to its end, neither refused nor canceled, has only terminal rows, and its status is
      failed iff none is done, completed with warnings iff some is done and some failed or warned, and
      completed otherwise. */
  lemma StatusFollowsFromTheModules(init: State, steps: seq<Step>)
    requires Initial(init) && Run(init, steps).Some? && Run(init, steps).value.pc == Ended(Finished)
    ensures var s := Run(init, steps).value;
            && Fits(s) && AllTerminal(s.db.rows)
            && (s.db.status == ScanStatus.Failed <==> !SomeDone(s, |s.plan|))
            && (s.db.status == CompletedWithWarnings <==> SomeDone(s, |s.plan|) && SomeProblem(s, |s.plan|))
            && (s.db.status == Completed <==> SomeDone(s, |s.plan|) && !SomeProblem(s, |s.plan|))
  {
    var s := Run(init, steps).value;
    RunsKeepOrder(init, steps);
    TallyCounts(s, |s.plan|);
    forall j | 0 <= j < |s.db.rows|
      ensures !s.db.rows[j].status.ModuleQueued? && !s.db.rows[j].status.ModuleRunning?
    {
      assert Passed(s, j);
    }
  }

  // ---- reading the status off the rows alone ----

  /** What the rows alone say, a message on a done row taken for its warnings. */
  function RowsVerdict(rows: seq<Row>): ScanStatus {
    if forall j | 0 <= j < |rows| :: !rows[j].status.Done? then ScanStatus.Failed
    else if exists j :: 0 <= j < |rows| && Complains(rows[j]) then CompletedWithWarnings
    else Completed
  }

  predicate Complains(row: Row) {
    row.status.ModuleFailed? || (row.status.Done? && row.message.Some?)
  }

  /** Module j is done, and its row already carried a message when the scan was claimed. */
  predicate CarriedOver(s: State, j: nat)
    requires Fits(s) && j < |s.plan|
  {
    s.db.rows[j].status.Done? && s.atClaim[j].message.Some?
  }

  /** The rows alone give the status, except exactly when no module failed or warned and a done row had a
      message at the claim: success does not clear the message of an earlier attempt. */
  lemma RowsTellTheStatusExactly(init: State, steps: seq<Step>)
    requires Initial(init) && Run(init, steps).Some? && Run(init, steps).value.pc == Ended(Finished)
    ensures var s := Run(init, steps).value;
            && Fits(s)
            && (s.db.status == RowsVerdict(s.db.rows) <==>
                  SomeProblem(s, |s.plan|) || forall j | 0 <= j < |s.plan| :: !CarriedOver(s, j))
  {
    var s := Run(init, steps).value;
    StatusFollowsFromTheModules(init, steps);
    RunsKeepOrder(init, steps);
    forall j: nat | j < |s.plan|
      ensures Complains(s.db.rows[j]) <==> HadProblem(s, j) || CarriedOver(s, j)
    {
      assert Passed(s, j);
    }
    if SomeDone(s, |s.plan|) {
      if SomeProblem(s, |s.plan|) {
        var j: nat :| j < |s.plan| && HadProblem(s, j);
        assert Complains(s.db.rows[j]);
      } else {
        assert forall j: nat | j < |s.plan| :: !HadProblem(s, j);
        if j: nat :| j < |s.plan| && CarriedOver(s, j) {
          assert Complains(s.db.rows[j]);
        } else {
          assert forall j: nat | j < |s.plan| :: !Complains(s.db.rows[j]);
        }
      }
    }
  }

  /** In particular they do for a scan whose rows were untouched when it was claimed. */
  lemma FirstAttemptRowsTellTheStatus(init: State, steps: seq<Step>)
    requires Initial(init) && Run(init, steps).Some? && Run(init, steps).value.pc == Ended(Finished)
    requires forall row | row in Run(init, steps).value.atClaim :: row == Fresh()
    ensures Run(init, steps).value.db.status == RowsVerdict(Run(init, steps).value.db.rows)
  {
    var s := Run(init, steps).value;
    RowsTellTheStatusExactly(init, steps);
    forall j | 0 <= j < |s.plan|
      ensures !CarriedOver(s, j)
    {
      assert s.atClaim[j] in s.atClaim;
    }
  }

  /** A terminal scan has a row that is not terminal only if its last dispatch was refused; a refused scan is
      failed and has its rows exactly as they were claimed. */
  lemma TerminalScansHaveTerminalRows(init: State, steps: seq<Step>)
    requires Initial(init) && Run(init, steps).Some? && Run(init, steps).value.db.status.IsTerminal()
    ensures var s := Run(init, steps).value;
            && s.pc.Ended? && Fits(s)
            && (s.pc.why != Refused ==> AllTerminal(s.db.rows))
            && (s.pc.why == Refused ==> s.db.status == ScanStatus.Failed && s.db.rows == s.atClaim)
            && (s.db.status == Canceled <==> s.pc.why == CancelSeen)
            && (s.db.status == Canceled ==> s.db.cancel)
  {
    RunsKeepOrder(init, steps);
    RunsKeepAllPlaces(init, steps);
    if Run(init, steps).value.pc == Ended(Finished) {
      StatusFollowsFromTheModules(init, steps);
    }
  }
}
