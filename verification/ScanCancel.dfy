/** What a committed cancel request means for the rest of a run, crashes and recoveries included. */
module ScanCancel {
  import opened Domain
  import opened ScanExecution
  import opened ScanVerdict
  import opened ScanOutcome

  /** How many modules enter running. */
  function Entries(steps: seq<Step>): nat {
    if steps == [] then 0 else Entries(steps[..|steps| - 1]) + if steps[|steps| - 1].Enter? then 1 else 0
  }

  /** The module whose cancel check has already passed. */
  function Committed(pc: Pc): nat {
    if pc.Entering? then 1 else 0
  }

  /** Once the flag is committed it stays, through crashes, recovery and new claims, and at most one more
      module enters running: the one whose check had already passed. */
  lemma {:induction false} AtMostOneMoreModule(s: State, more: seq<Step>)
    requires s.db.cancel && Run(s, more).Some?
    ensures Run(s, more).value.db.cancel
    ensures Entries(more) + Committed(Run(s, more).value.pc) <= Committed(s.pc)
  {
    if more != [] {
      AtMostOneMoreModule(s, more[..|more| - 1]);
    }
  }

  /** The executor has not yet decided on an end other than canceled. */
  predicate StillCancelable(pc: Pc) {
    && (pc.Closing? ==> pc.why == CancelSeen)
    && (pc.Ended? ==> pc.why == CancelSeen)
  }

  /** After `more` steps, the last of: a decision already taken, a refused dispatch, and a crash, which
      undoes either, was not a crash. */
  predicate Overtaken(pc: Pc, more: seq<Step>) {
    if more == [] then !StillCancelable(pc) else
    var last := more[|more| - 1];
    last == Dispatch(false) || (!last.Crash? && Overtaken(pc, more[..|more| - 1]))
  }

  lemma {:induction false} CancelableExactly(s: State, more: seq<Step>)
    requires s.db.cancel && Run(s, more).Some?
    ensures StillCancelable(Run(s, more).value.pc) <==> !Overtaken(s.pc, more)
  {
    if more != [] {
      var earlier := more[..|more| - 1];
      CancelableExactly(s, earlier);
      AtMostOneMoreModule(s, earlier);
    }
  }

  lemma {:induction false} RunsConcatenate(init: State, steps: seq<Step>, more: seq<Step>)
    requires Run(init, steps).Some? && Run(Run(init, steps).value, more).Some?
    ensures Run(init, steps + more) == Run(Run(init, steps).value, more)
  {
    if more == [] {
      assert steps + more == steps;
    } else {
      var earlier := more[..|more| - 1];
      RunsConcatenate(init, steps, earlier);
      assert (steps + more)[..|steps + more| - 1] == steps + earlier;
    }
  }

  /** However a run goes on after the flag is committed, crashes and recoveries included: when it reaches a
      final status, that is canceled, with every module row terminal, if and only if the cancel was not
      overtaken. It is overtaken by a final check that had passed before and by a refused dispatch, unless
      the worker crashes after either. */
  lemma CancelWinsExactly(init: State, steps: seq<Step>, more: seq<Step>)
    requires Initial(init) && Run(init, steps).Some? && Run(init, steps).value.db.cancel
    requires Run(Run(init, steps).value, more).Some?
    requires Run(Run(init, steps).value, more).value.db.status.IsTerminal()
    ensures var s, t := Run(init, steps).value, Run(Run(init, steps).value, more).value;
            && (t.db.status == Canceled <==> !Overtaken(s.pc, more))
            && (t.db.status == Canceled ==> AllTerminal(t.db.rows))
  {
    CancelableExactly(Run(init, steps).value, more);
    RunsConcatenate(init, steps, more);
    TerminalScansHaveTerminalRows(init, steps + more);
  }

  /** Once the final check has passed, or the dispatch was refused, an executor that survives until its last
      commit gives the scan the status it had decided on, whether the flag is set by then or not. */
  lemma PassedCheckWins(s: State)
    requires Fits(s) && s.pc.Closing? && s.pc.why != CancelSeen
    ensures Run(s, [Cancel, Close]).Some? && Run(s, [Cancel, Close]).value.db.status == s.pc.status
    ensures Run(s, [Cancel, Close]).value.db.rows == s.db.rows
  {
    RunOn(s, [], Cancel);
    assert [] + [Cancel] == [Cancel];
    RunOn(s, [Cancel], Close);
    assert [Cancel] + [Close] == [Cancel, Close];
  }
}
