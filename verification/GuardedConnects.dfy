/** Many connects at once behind the guard: what `ScanGuard` shows for one call at a time holds under every
    interleaving. */
module GuardedConnects {
  import opened Wrappers
  import opened Ledger
  import opened Ranges
  import opened Scope
  import G = ScanGuard
  import opened ConnectProtocol
  import opened ConnectOutcomes

  /** Task `i` connects to a destination of target `targets[i]`, with the verdict of the guard's checks. */
  predicate Guarded(t: RangeTable, scope: ScopeProfile, targets: seq<G.ValidatedTarget>, s: State) {
    && |targets| == |s.tasks|
    && forall i | 0 <= i < |s.tasks| ::
         s.tasks[i].refusal == G.ConnectRefusal(t, scope, targets[i], s.tasks[i].host, s.tasks[i].port)
  }

  /** A refused task gets no further than its denied entry, with its own reason, and no other task is there. */
  predicate StaysOut(t: Task) {
    match t.phase
    case Idle => true
    case Refusing(reason) => t.refusal == Some(reason) && !reason.PortOutOfRange?
    case Finished(RefusedByGuard(reason)) => t.refusal == Some(reason)
    case Finished(CanceledRefused(reason)) => t.refusal == Some(reason) && !reason.PortOutOfRange?
    case Finished(CanceledEarly) => true
    case _ => t.refusal == None
  }

  lemma StepKeepsOut(s: State, step: Step)
    requires 0.0 < s.bucket.rate && Enabled(s, step)
    requires forall i | 0 <= i < |s.tasks| :: StaysOut(s.tasks[i])
    ensures forall i | 0 <= i < |Apply(s, step).tasks| :: StaysOut(Apply(s, step).tasks[i])
  {
  }

  lemma {:induction false} RefusedStayOut(init: State, steps: seq<Step>)
    requires Initial(init) && After(init, steps).Some?
    ensures forall i | 0 <= i < |After(init, steps).value.tasks| :: StaysOut(After(init, steps).value.tasks[i])
  {
    if steps != [] {
      RefusedStayOut(init, steps[..|steps| - 1]);
      StepKeepsOut(After(init, steps[..|steps| - 1]).value, steps[|steps| - 1]);
    }
  }

  /** Under every interleaving of any number of tasks, every connect that was started goes to an address in
      its own target, in one scope entry within one allowed range, and in no always-denied class. */
  lemma EveryConnectIsSafe(t: RangeTable, scope: ScopeProfile, targets: seq<G.ValidatedTarget>, init: State,
                           steps: seq<Step>, i: nat)
    requires Legal(t, scope) && Initial(init) && Guarded(t, scope, targets, init) && After(init, steps).Some?
    requires i < |After(init, steps).value.tasks| && WasCounted(After(init, steps).value.tasks[i])
    ensures i < |targets|
    ensures var task := After(init, steps).value.tasks[i];
            G.SafeSocket(t, scope, G.Socket(targets[i], task.host, task.port, G.Accepted))
  {
    RefusedStayOut(init, steps);
    RunsKeepTasks(init, steps);
    var task := After(init, steps).value.tasks[i];
    assert StaysOut(task);
    G.UnrefusedIsSafe(t, scope, G.Socket(targets[i], task.host, task.port, G.Accepted));
  }

  /** In numbers, with the constants of the code. */
  lemma EveryConnectInNumbers(t: RangeTable, scope: ScopeProfile, targets: seq<G.ValidatedTarget>, init: State,
                              steps: seq<Step>, i: nat)
    requires HasCodeConstants(t) && Legal(t, scope)
    requires Initial(init) && Guarded(t, scope, targets, init) && After(init, steps).Some?
    requires i < |After(init, steps).value.tasks| && WasCounted(After(init, steps).value.tasks[i])
    ensures i < |targets|
    ensures var task := After(init, steps).value.tasks[i];
            G.SafeInNumbers(t, scope, G.Socket(targets[i], task.host, task.port, G.Accepted))
  {
    EveryConnectIsSafe(t, scope, targets, init, steps, i);
    var task := After(init, steps).value.tasks[i];
    G.SafeSocketInNumbers(t, scope, G.Socket(targets[i], task.host, task.port, G.Accepted));
  }

  /** A refused task that is not cancelled leaves the entries of one guarded connect: none if the port is out of
      range, one with the reason else. */
  lemma RefusalLeavesItsEntry(t: RangeTable, scope: ScopeProfile, targets: seq<G.ValidatedTarget>, s: State, i: nat)
    requires 0.0 < s.bucket.rate && Guarded(t, scope, targets, s) && Enabled(s, Begin(i)) && s.tasks[i].refusal.Some?
    ensures var refused, reason := Apply(s, Begin(i)), s.tasks[i].refusal.value;
            && (refused.tasks[i].phase.Finished? <==> reason.PortOutOfRange?)
            && (!reason.PortOutOfRange? ==> Enabled(refused, WriteEntry(i)))
            && var after := if reason.PortOutOfRange? then refused else Apply(refused, WriteEntry(i));
            && after.tasks[i].phase == Finished(RefusedByGuard(reason)) && after.gov == s.gov
            && after.ledger == G.AfterConnect(t, scope, G.GuardState(s.ledger, []), targets[i], s.tasks[i].host,
                                              s.tasks[i].port, G.Admitted, G.Accepted).0.entries
  {
    assert s.ledger + [] == s.ledger;
  }

  /** This entry is the guard's verdict on the destination of task `i`, which is over. */
  predicate IsVerdictOn(t: RangeTable, scope: ScopeProfile, targets: seq<G.ValidatedTarget>, s: State, i: int,
                        e: LedgerEntry) {
    && 0 <= i < |s.tasks| == |targets| && s.tasks[i].phase.Finished? && !s.tasks[i].phase.end.CanceledEarly?
    && e.destination == ToAddress(s.tasks[i].host) && e.port == Some(s.tasks[i].port) && e.outcome == Rejected
    && e.reason.Some? && !e.reason.value.PortOutOfRange?
    && G.ConnectRefusal(t, scope, targets[i], s.tasks[i].host, s.tasks[i].port) == e.reason
  }

  ghost predicate IsVerdict(t: RangeTable, scope: ScopeProfile, targets: seq<G.ValidatedTarget>, s: State,
                            e: LedgerEntry) {
    exists i :: IsVerdictOn(t, scope, targets, s, i, e)
  }

  /** In every reachable state the denied entries with a port are exactly the guard's verdicts on the tasks it
      refused for another reason than the port, but for tasks cancelled before the commit. */
  lemma DeniedEntriesAreTheVerdicts(t: RangeTable, scope: ScopeProfile, targets: seq<G.ValidatedTarget>, init: State,
                                    steps: seq<Step>, e: LedgerEntry)
    requires Initial(init) && Guarded(t, scope, targets, init) && After(init, steps).Some?
    requires e.port.Some? && e.decision == Denied
    ensures var s := After(init, steps).value; e in s.ledger <==> IsVerdict(t, scope, targets, s, e)
  {
    EntryIsThereExactly(init, steps, e);
    RefusedStayOut(init, steps);
    RunsKeepTasks(init, steps);
    var s := After(init, steps).value;
    forall i: nat | i < |s.tasks|
      ensures HasWritten(s.tasks[i], e) <==> IsVerdictOn(t, scope, targets, s, i, e)
    {
      assert StaysOut(s.tasks[i]);
    }
  }
}
