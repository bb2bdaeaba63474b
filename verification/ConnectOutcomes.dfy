/** The counters and the ledger in terms of how the tasks ended: which connects are counted, which of them
    have their audit entry, and which have lost it. */
module ConnectOutcomes {
  import opened Wrappers
  import opened Counting
  import opened Ledger
  import opened TokenBucket
  import opened Governor
  import opened ConnectProtocol

  /** The task got as far as its connect. */
  predicate WasCounted(t: Task) {
    Pending(t) || (t.phase.Finished? && EndsConnect(t.phase.end))
  }

  predicate EndsConnect(end: End) {
    end.Opened? || end.Errored? || end.EntryLost? || end.EntryKept?
  }

  function WasCountedOn(host: Host): Task -> bool {
    (t: Task) => t.host == host && WasCounted(t)
  }

  predicate LostItsEntry(t: Task) {
    t.phase.Finished? && t.phase.end.EntryLost?
  }

  /** The task has left this entry about its connect or its refusal. */
  predicate HasWritten(t: Task, e: LedgerEntry) {
    var to, port := ToAddress(t.host), Some(t.port);
    t.phase.Finished? && match t.phase.end
                         case Opened => e == AllowedEntry(to, port, Connected)
                         case Errored(_) => e == AllowedEntry(to, port, ConnectFailed)
                         case EntryKept(outcome) => e == AllowedEntry(to, port, outcome)
                         case RefusedByGuard(reason) => !reason.PortOutOfRange? && e == DeniedEntry(to, port, reason)
                         case CanceledRefused(reason) => e == DeniedEntry(to, port, reason)
                         case _ => false
  }

  function Wrote(e: LedgerEntry): Task -> bool {
    (t: Task) => HasWritten(t, e)
  }

  function Equals(e: LedgerEntry): LedgerEntry -> bool {
    (other: LedgerEntry) => other == e
  }

  // ---- one step ----

  /** What a step means for the end of its task. */
  predicate MovesTask(s: State, after: State, i: nat) {
    && i < |s.tasks| == |after.tasks| && after.tasks == s.tasks[i := after.tasks[i]]
    && var t, moved := s.tasks[i], after.tasks[i];
    && moved.host == t.host && moved.port == t.port && moved.refusal == t.refusal
    && (WasCounted(t) ==> WasCounted(moved))
    && (t.phase.Finished? ==> moved == t)
    && !moved.phase.Idle?
  }

  predicate Counts(s: State, after: State, i: nat)
    requires i < |s.tasks| == |after.tasks|
  {
    var t, moved := s.tasks[i], after.tasks[i];
    && after.gov.scanCount == s.gov.scanCount + One(WasCounted(moved)) - One(WasCounted(t))
    && after.gov.hostCounts == (if WasCounted(moved) && !WasCounted(t)
                                then s.gov.hostCounts[t.host := CountOn(s.gov, t.host) + 1]
                                else s.gov.hostCounts)
    && |after.lost| == |s.lost| + One(LostItsEntry(moved)) - One(LostItsEntry(t))
  }

  predicate Records(s: State, after: State, i: nat) {
    MovesTask(s, after, i) && Counts(s, after, i)
  }

  lemma StepMovesTask(s: State, step: Step)
    requires 0.0 < s.bucket.rate && Enabled(s, step) && !step.Tick?
    ensures MovesTask(s, Apply(s, step), step.i)
  {
  }

  lemma StepRecords(s: State, step: Step)
    requires 0.0 < s.bucket.rate && Enabled(s, step) && !step.Tick?
    ensures Records(s, Apply(s, step), step.i)
  {
    StepMovesTask(s, step);
    var event := StepMeans(s, step);
    var t, moved := s.tasks[step.i], Apply(s, step).tasks[step.i];
    assert WasCounted(moved) && !WasCounted(t) <==> event.Start?;
    assert LostItsEntry(moved) && !LostItsEntry(t) <==> event.Loss?;
  }

  /** Of the entries with a port, a step adds exactly the one its task has then written. */
  predicate RecordsEntry(s: State, after: State, i: nat, e: LedgerEntry) {
    && i < |s.tasks| == |after.tasks| && after.tasks == s.tasks[i := after.tasks[i]]
    && Count(after.ledger, Equals(e)) - Count(s.ledger, Equals(e))
       == One(HasWritten(after.tasks[i], e)) - One(HasWritten(s.tasks[i], e))
  }

  /** A denied entry is written for every reason but the port. */
  predicate EntryIsDue(t: Task) {
    t.phase.Refusing? ==> !t.phase.reason.PortOutOfRange?
  }

  lemma StepRecordsEntry(s: State, step: Step, e: LedgerEntry)
    requires 0.0 < s.bucket.rate && Enabled(s, step) && !step.Tick? && EntryIsDue(s.tasks[step.i])
    ensures RecordsEntry(s, Apply(s, step), step.i, e)
  {
    if step.WriteEntry? || step.CancelRecorded? {
      CommitRecordsEntry(s, step, e);
    }
  }

  lemma CommitRecordsEntry(s: State, step: Step, e: LedgerEntry)
    requires 0.0 < s.bucket.rate && Enabled(s, step) && (step.WriteEntry? || step.CancelRecorded?)
    requires EntryIsDue(s.tasks[step.i])
    ensures RecordsEntry(s, Apply(s, step), step.i, e)
  {
    CountAppend(s.ledger, EntryOf(s.tasks[step.i]), Equals(e));
  }

  // ---- every run ----

  ghost predicate OutcomesKept(s: State) {
    && s.gov.scanCount == Count(s.tasks, WasCounted)
    && (forall host :: CountOn(s.gov, host) == Count(s.tasks, WasCountedOn(host)))
    && |s.lost| == Count(s.tasks, LostItsEntry)
    && EntriesKept(s)
  }

  ghost predicate EntriesKept(s: State) {
    && (forall i | 0 <= i < |s.tasks| :: EntryIsDue(s.tasks[i]))
    && (forall e: LedgerEntry | e.port.Some? :: Count(s.ledger, Equals(e)) == Count(s.tasks, Wrote(e)))
  }

  lemma HostCountKept(s: State, after: State, i: nat, host: Host)
    requires Records(s, after, i) && CountOn(s.gov, host) == Count(s.tasks, WasCountedOn(host))
    ensures CountOn(after.gov, host) == Count(after.tasks, WasCountedOn(host))
  {
    CountUpdate(s.tasks, i, after.tasks[i], WasCountedOn(host));
  }

  lemma EntryCountKept(s: State, after: State, i: nat, e: LedgerEntry)
    requires RecordsEntry(s, after, i, e) && Count(s.ledger, Equals(e)) == Count(s.tasks, Wrote(e))
    ensures Count(after.ledger, Equals(e)) == Count(after.tasks, Wrote(e))
  {
    CountUpdate(s.tasks, i, after.tasks[i], Wrote(e));
  }

  lemma CountsKept(s: State, after: State, i: nat)
    requires Records(s, after, i)
    requires s.gov.scanCount == Count(s.tasks, WasCounted) && |s.lost| == Count(s.tasks, LostItsEntry)
    ensures after.gov.scanCount == Count(after.tasks, WasCounted) && |after.lost| == Count(after.tasks, LostItsEntry)
  {
    CountUpdate(s.tasks, i, after.tasks[i], WasCounted);
    CountUpdate(s.tasks, i, after.tasks[i], LostItsEntry);
  }

  lemma StepKeepsEntries(s: State, step: Step)
    requires 0.0 < s.bucket.rate && Enabled(s, step) && !step.Tick? && EntriesKept(s)
    ensures EntriesKept(Apply(s, step))
  {
    forall e: LedgerEntry | e.port.Some?
      ensures Count(Apply(s, step).ledger, Equals(e)) == Count(Apply(s, step).tasks, Wrote(e))
    {
      StepRecordsEntry(s, step, e);
      EntryCountKept(s, Apply(s, step), step.i, e);
    }
  }

  lemma StepKeepsOutcomes(s: State, step: Step)
    requires 0.0 < s.bucket.rate && Enabled(s, step) && OutcomesKept(s)
    ensures OutcomesKept(Apply(s, step))
  {
    var after := Apply(s, step);
    if !step.Tick? {
      StepRecords(s, step);
      CountsKept(s, after, step.i);
      forall host
        ensures CountOn(after.gov, host) == Count(after.tasks, WasCountedOn(host))
      {
        HostCountKept(s, after, step.i, host);
      }
      StepKeepsEntries(s, step);
    }
  }

  lemma InitialKeepsOutcomes(init: State)
    requires Initial(init)
    ensures OutcomesKept(init)
  {
    CountNone(init.tasks, WasCounted);
    CountNone(init.tasks, LostItsEntry);
    forall host
      ensures Count(init.tasks, WasCountedOn(host)) == 0
    {
      CountNone(init.tasks, WasCountedOn(host));
    }
    forall e: LedgerEntry | e.port.Some?
      ensures Count(init.ledger, Equals(e)) == Count(init.tasks, Wrote(e)) == 0
    {
      CountNone(init.tasks, Wrote(e));
      CountNone(init.ledger, Equals(e));
    }
  }

  /** In every reachable state the scan count is the number of tasks that got as far as their connect, in
      total and on every host; of every entry with a port, allowed or denied, the ledger has exactly as many
      copies as tasks that ended with that connect or that refusal, one cancelled after the commit included;
      and of the tasks that connected, exactly those cancelled before the commit have none. */
  lemma {:induction false} OutcomesAlwaysKept(init: State, steps: seq<Step>)
    requires Initial(init) && After(init, steps).Some?
    ensures OutcomesKept(After(init, steps).value)
  {
    if steps == [] {
      InitialKeepsOutcomes(init);
    } else {
      OutcomesAlwaysKept(init, steps[..|steps| - 1]);
      StepKeepsOutcomes(After(init, steps[..|steps| - 1]).value, steps[|steps| - 1]);
    }
  }

  /** So an entry with a port is in the ledger exactly if some task has left it. */
  lemma EntryIsThereExactly(init: State, steps: seq<Step>, e: LedgerEntry)
    requires Initial(init) && After(init, steps).Some? && e.port.Some?
    ensures var s := After(init, steps).value;
            e in s.ledger <==> exists i | 0 <= i < |s.tasks| :: HasWritten(s.tasks[i], e)
  {
    OutcomesAlwaysKept(init, steps);
    var s := After(init, steps).value;
    CountPositive(s.ledger, Equals(e));
    CountPositive(s.tasks, Wrote(e));
    assert Count(s.ledger, Equals(e)) == Count(s.tasks, Wrote(e));
    if k :| 0 <= k < |s.ledger| && s.ledger[k] == e {
      assert Equals(e)(s.ledger[k]);
    }
    if i :| 0 <= i < |s.tasks| && HasWritten(s.tasks[i], e) {
      assert Wrote(e)(s.tasks[i]);
    }
  }

  /** From any state on: finished tasks stay as they are, a task that has begun has, and hosts, ports and
      refusals never change. */
  predicate SameTasks(s: State, after: State) {
    && |s.tasks| == |after.tasks|
    && forall i | 0 <= i < |s.tasks| ::
         && after.tasks[i].host == s.tasks[i].host && after.tasks[i].port == s.tasks[i].port
         && after.tasks[i].refusal == s.tasks[i].refusal
         && (s.tasks[i].phase.Finished? ==> after.tasks[i] == s.tasks[i])
         && (after.tasks[i].phase.Idle? ==> after.tasks[i] == s.tasks[i])
  }

  lemma {:induction false} RunsKeepTasks(s: State, steps: seq<Step>)
    requires 0.0 < s.bucket.rate && After(s, steps).Some?
    ensures SameTasks(s, After(s, steps).value)
  {
    if steps != [] {
      var before, step := After(s, steps[..|steps| - 1]).value, steps[|steps| - 1];
      RunsKeepTasks(s, steps[..|steps| - 1]);
      if !step.Tick? {
        StepRecords(before, step);
      }
    }
  }

  lemma {:induction false} AfterConcat(s: State, steps: seq<Step>, more: seq<Step>)
    requires 0.0 < s.bucket.rate && After(s, steps).Some? && After(After(s, steps).value, more).Some?
    ensures After(s, steps + more) == After(After(s, steps).value, more)
  {
    if more == [] {
      assert steps + more == steps;
    } else {
      var init := more[..|more| - 1];
      AfterConcat(s, steps, init);
      assert (steps + more)[..|steps + more| - 1] == steps + init;
    }
  }

  // ---- how a task ends follows from how its connect ended ----

  /** How the connect of a task went. */
  datatype Went = NotMade | Succeeded | Failed(failure: Failure)

  function WentBy(steps: seq<Step>, i: nat): Went {
    if steps == [] then NotMade else
    match steps[|steps| - 1]
    case Succeed(j) => if j == i then Succeeded else WentBy(steps[..|steps| - 1], i)
    case Fail(j, failure) => if j == i then Failed(failure) else WentBy(steps[..|steps| - 1], i)
    case _ => WentBy(steps[..|steps| - 1], i)
  }

  predicate EndsAs(t: Task, went: Went) {
    match t.phase
    case Recording => went == Succeeded
    case Failing(failure) => went == Failed(failure)
    case Finished(Opened) => went == Succeeded
    case Finished(Errored(failure)) => went == Failed(failure)
    case Finished(EntryKept(outcome)) =>
      went != NotMade && outcome == (if went.Failed? then ConnectFailed else Connected)
    case Finished(EntryLost) => went != NotMade
    case _ => went == NotMade
  }

  lemma StepEndsAs(s: State, step: Step, i: nat, went: Went)
    requires 0.0 < s.bucket.rate && Enabled(s, step) && i < |s.tasks| && EndsAs(s.tasks[i], went)
    ensures EndsAs(Apply(s, step).tasks[i], if step == Succeed(i) then Succeeded
                                            else if step.Fail? && step.i == i then Failed(step.failure) else went)
  {
  }

  /** In every run a task ends opened exactly if its connect succeeded, and with an error exactly if it failed with
      that error, but for a cancel while its entry was being written. */
  lemma {:induction false} TasksEndAsTheyWent(init: State, steps: seq<Step>, i: nat)
    requires Initial(init) && After(init, steps).Some? && i < |init.tasks|
    ensures |After(init, steps).value.tasks| == |init.tasks|
    ensures EndsAs(After(init, steps).value.tasks[i], WentBy(steps, i))
  {
    RunsKeepTasks(init, steps);
    if steps != [] {
      var earlier := steps[..|steps| - 1];
      TasksEndAsTheyWent(init, earlier, i);
      StepEndsAs(After(init, earlier).value, steps[|steps| - 1], i, WentBy(earlier, i));
    }
  }

  // ---- a run that loses an entry ----

  lemma RunOn(init: State, steps: seq<Step>, step: Step)
    requires 0.0 < init.bucket.rate && After(init, steps).Some? && Enabled(After(init, steps).value, step)
    ensures After(init, steps + [step]) == Some(Apply(After(init, steps).value, step))
  {
    assert (steps + [step])[..|steps|] == steps;
  }

  /** The first task gets its token; nothing is counted or recorded yet. */
  lemma FirstToken(init: State) returns (steps: seq<Step>, s: State)
    requires Initial(init) && 1.0 <= init.bucket.rate && init.tasks != [] && init.tasks[0].refusal == None
    ensures After(init, steps) == Some(s) && s.bucket.rate == init.bucket.rate
    ensures s.tasks == Moved(init, 0, HasToken) && s.gov == init.gov && s.ledger == init.ledger && s.lost == []
  {
    RunOn(init, [], Begin(0));
    var queued := Apply(init, Begin(0));
    assert queued == init.(tasks := Moved(init, 0, Queued));
    assert TakeTurn(queued.bucket, queued.now).granted;
    RunOn(init, [] + [Begin(0)], TurnOf(0));
    steps, s := [] + [Begin(0)] + [TurnOf(0)], Apply(queued, TurnOf(0));
    assert s.tasks == Moved(init, 0, HasToken);
  }

  /** From its token to the point where its entry is about to be written. */
  lemma ReachesRecording(init: State, steps: seq<Step>, s: State) returns (longer: seq<Step>, t: State)
    requires 0.0 < init.bucket.rate && After(init, steps) == Some(s)
    requires s.tasks != [] && s.tasks[0].phase.HasToken? && 0 < s.gov.globalFree && 0 < FreeOn(s.gov, s.tasks[0].host)
    ensures After(init, longer) == Some(t)
    ensures t.tasks == Moved(s, 0, Recording) && t.gov.scanCount == s.gov.scanCount + 1
    ensures t.ledger == s.ledger && t.lost == s.lost && t.bucket == s.bucket
  {
    RunOn(init, steps, TakeGlobalPermit(0));
    var s1 := Apply(s, TakeGlobalPermit(0));
    RunOn(init, steps + [TakeGlobalPermit(0)], TakeHostPermit(0));
    var s2 := Apply(s1, TakeHostPermit(0));
    longer := steps + [TakeGlobalPermit(0)] + [TakeHostPermit(0)];
    RunOn(init, longer, Succeed(0));
    longer, t := longer + [Succeed(0)], Apply(s2, Succeed(0));
    assert t.tasks == Moved(s, 0, Recording);
  }

  /** Every scan with a rate of at least 1 and a task for an admissible destination can lose an entry: the
      connect is made and counted, the task is cancelled while writing its entry, and the ledger never
      shows it. */
  lemma AnEntryCanBeLost(init: State) returns (steps: seq<Step>)
    requires Initial(init) && 1.0 <= init.bucket.rate && init.tasks != [] && init.tasks[0].refusal == None
    ensures After(init, steps).Some?
    ensures var s := After(init, steps).value;
            && s.lost == [init.tasks[0].host] && s.gov.scanCount == 1
            && (forall i | 0 <= i < |s.ledger| :: !IsProbe(s.ledger[i]))
  {
    var s: State;
    steps, s := FirstToken(init);
    steps, s := ReachesRecording(init, steps, s);
    RunOn(init, steps, Cancel(0));
    steps := steps + [Cancel(0)];
    assert [] + [init.tasks[0].host] == [init.tasks[0].host];
  }
}
